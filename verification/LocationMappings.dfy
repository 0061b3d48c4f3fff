/** An integration's location mappings: the keys of the table are the unique
    (integration, location) pairs, and `external_location_id` of the active rows is
    what a sale is resolved with. Each operation holds the Integration row's lock. */
module LocationMappings {
  import opened Common
  import opened Sales

  /** config_json["external_location_id"]: JSON, so it may be anything. */
  datatype ExternalId = Missing | Text(id: string) | NotText(truthy: bool)

  datatype Config = Config(externalId: ExternalId, rest: string)

  datatype Mapping = Mapping(config: Option<Config>, active: bool)

  type Table = map<LocationId, Mapping>

  /** One entry of a replace request. */
  datatype Item = Item(location: LocationId, config: Option<Config>, active: bool)

  datatype MappingError = DuplicateLocation | LocationsNotFound | NotAString | NotUnique | MappingExists

  /** The locations the tenant can see, with the merchant each belongs to, and whom the request is for. */
  datatype Scope = Scope(visible: map<LocationId, MerchantId>, owner: MerchantId, merchant: MerchantId)

  function ExternalIdOf(config: Option<Config>): ExternalId {
    if config.Some? then config.value.externalId else Missing
  }

  predicate Truthy(e: ExternalId) {
    match e
    case Missing => false
    case Text(id) => id != ""
    case NotText(truthy) => truthy
  }

  function Active(t: Table): set<LocationId> { set l | l in t && t[l].active }

  function WithId(t: Table, id: string): set<LocationId> {
    set l | l in t && t[l].active && ExternalIdOf(t[l].config) == Text(id)
  }

  predicate SameMerchant(scope: Scope, location: LocationId)
    requires location in scope.visible
  {
    scope.owner == scope.merchant && scope.visible[location] == scope.merchant
  }

  // --- the operations ---

  function Add(t: Table, scope: Scope, location: LocationId, config: Option<Config>, active: bool): Result<Table, MappingError> {
    var id := ExternalIdOf(config);
    if location !in scope.visible || !SameMerchant(scope, location) then Err(LocationsNotFound)
    else if active && id.NotText? then Err(NotAString)
    else if active && id.Text? && WithId(t, id.id) != {} then Err(NotUnique)
    else if location in t then Err(MappingExists)
    else Ok(t[location := Mapping(config, active)])
  }

  /** The first complaint about the request's active ids, given those seen before it. */
  function CheckIds(items: seq<Item>, seen: set<string>): Option<MappingError> {
    if items == [] then None
    else
      var id := ExternalIdOf(items[0].config);
      if !items[0].active || id.Missing? then CheckIds(items[1..], seen)
      else if id.NotText? then Some(NotAString)
      else if id.id in seen then Some(NotUnique)
      else CheckIds(items[1..], seen + {id.id})
  }

  predicate DistinctLocations(items: seq<Item>) {
    forall i, j :: 0 <= i < j < |items| ==> items[i].location != items[j].location
  }

  function Requested(items: seq<Item>): Table
    decreases |items|
  {
    if items == [] then map[]
    else
      var last := items[|items| - 1];
      Requested(items[..|items| - 1])[last.location := Mapping(last.config, last.active)]
  }

  function Replace(t: Table, scope: Scope, items: seq<Item>): Result<Table, MappingError> {
    if !DistinctLocations(items) then Err(DuplicateLocation)
    else if exists i :: 0 <= i < |items| && items[i].location !in scope.visible then Err(LocationsNotFound)
    else if exists i :: 0 <= i < |items| && !SameMerchant(scope, items[i].location) then Err(LocationsNotFound)
    else if CheckIds(items, {}).Some? then Err(CheckIds(items, {}).value)
    else Ok(Requested(items))
  }

  function Deactivate(t: Table): Table { map l | l in t :: t[l].(active := false) }

  function Only(s: set<LocationId>): (l: LocationId)
    requires |s| == 1
    ensures s == {l}
  {
    OneElement(s);
    var l :| l in s;
    l
  }

  lemma OneElement(s: set<LocationId>)
    requires |s| == 1
    ensures forall a, b :: a in s && b in s ==> a == b
    ensures forall a :: a in s ==> s == {a}
  {
    forall a | a in s ensures s == {a} {
      assert |s - {a}| == 0;
    }
  }

  /** Never guesses: the single active mapping without an id, or the one with the sale's id. */
  function Resolve(t: Table, external: Option<string>): Option<LocationId> {
    if |Active(t)| == 1 && !Truthy(ExternalIdOf(t[Only(Active(t))].config)) then Some(Only(Active(t)))
    else if external.Some? && external.value != "" && |WithId(t, external.value)| == 1 then Some(Only(WithId(t, external.value)))
    else None
  }

  // --- what the loops rely on ---

  function LocationsOf(items: seq<Item>): set<LocationId> { set i | 0 <= i < |items| :: items[i].location }

  lemma LocationsSnoc(items: seq<Item>)
    requires items != []
    ensures var n := |items| - 1; LocationsOf(items) == LocationsOf(items[..n]) + {items[n].location}
  {
    var n := |items| - 1;
    forall l ensures l in LocationsOf(items) <==> l in LocationsOf(items[..n]) + {items[n].location} {
      if l in LocationsOf(items[..n]) {
        var i :| 0 <= i < n && items[..n][i].location == l;
        assert items[i].location == l;
      }
      if l in LocationsOf(items) {
        var i :| 0 <= i < |items| && items[i].location == l;
        if i < n { assert items[..n][i].location == l; }
      }
    }
  }

  lemma DistinctSnoc(items: seq<Item>)
    requires items != []
    ensures var n := |items| - 1;
            DistinctLocations(items) <==> DistinctLocations(items[..n]) && items[n].location !in LocationsOf(items[..n])
  {
    var n := |items| - 1;
    var before := items[..n];
    if items[n].location in LocationsOf(before) {
      var i :| 0 <= i < n && before[i].location == items[n].location;
      assert items[i].location == items[n].location;
    } else {
      assert forall i :: 0 <= i < n ==> before[i] == items[i] && items[i].location in LocationsOf(before);
    }
  }

  lemma {:induction false} DistinctMeansNoRepeats(items: seq<Item>)
    ensures |set i | 0 <= i < |items| :: items[i].location| <= |items|
    ensures |set i | 0 <= i < |items| :: items[i].location| == |items| <==> DistinctLocations(items)
    decreases |items|
  {
    assert LocationsOf(items) == set i | 0 <= i < |items| :: items[i].location;
    if items == [] {
      assert LocationsOf(items) == {};
    } else {
      var n := |items| - 1;
      DistinctMeansNoRepeats(items[..n]);
      assert LocationsOf(items[..n]) == set i | 0 <= i < |items[..n]| :: items[..n][i].location;
      LocationsSnoc(items);
      DistinctSnoc(items);
      hide DistinctLocations, LocationsOf;
    }
  }

  lemma SubsetOfSameSize(a: set<LocationId>, b: set<LocationId>)
    requires a <= b
    ensures |a| == |b| <==> a == b
  {
    assert b == a + (b - a);
  }

  lemma {:induction false} CheckIdsSplits(items: seq<Item>, seen: set<string>, k: nat)
    requires k <= |items| && CheckIds(items[..k], seen).None?
    ensures CheckIds(items, seen) == CheckIds(items[k..], seen + TextIds(items[..k]))
  {
    if k == 0 {
      assert items[..0] == [] && items[0..] == items;
      assert seen + TextIds([]) == seen;
    } else {
      var id := ExternalIdOf(items[0].config);
      assert items[..k][1..] == items[1..][..k - 1];
      assert items[k..] == items[1..][k - 1..];
      var seen1 := if items[0].active && id.Text? then seen + {id.id} else seen;
      CheckIdsSplits(items[1..], seen1, k - 1);
      assert seen1 + TextIds(items[1..][..k - 1]) == seen + TextIds(items[..k]);
    }
  }

  function TextIds(items: seq<Item>): set<string> {
    if items == [] then {}
    else
      var id := ExternalIdOf(items[0].config);
      (if items[0].active && id.Text? then {id.id} else {}) + TextIds(items[1..])
  }

  lemma {:induction false} TextIdsSnoc(items: seq<Item>, item: Item)
    ensures TextIds(items + [item]) == TextIds(items) + TextIds([item])
  {
    if items == [] {
      assert items + [item] == [item];
    } else {
      assert (items + [item])[1..] == items[1..] + [item];
      TextIdsSnoc(items[1..], item);
    }
  }

  /** The integration's mapping rows, changed in place under its lock. */
  class MappingRows {
    var rows: Table

    constructor (t: Table)
      ensures rows == t
    {
      rows := t;
    }

    method AddLocationMapping(scope: Scope, location: LocationId, config: Option<Config>, active: bool)
      returns (error: Option<MappingError>)
      modifies this
      ensures error == (match Add(old(rows), scope, location, config, active) case Ok(_) => None case Err(e) => Some(e))
      ensures rows == (match Add(old(rows), scope, location, config, active) case Ok(t) => t case Err(_) => old(rows))
    {
      if location !in scope.visible { return Some(LocationsNotFound); }
      if !SameMerchant(scope, location) { return Some(LocationsNotFound); }
      if active {
        var id := ExternalIdOf(config);
        if id.NotText? { return Some(NotAString); }
        if id.Text? && WithId(rows, id.id) != {} { return Some(NotUnique); }
      }
      if location in rows { return Some(MappingExists); }
      rows := rows[location := Mapping(config, active)];
      return None;
    }

    method CheckRequest(items: seq<Item>) returns (error: Option<MappingError>)
      ensures error == CheckIds(items, {})
    {
      var seen: set<string> := {};
      for i := 0 to |items|
        invariant seen == TextIds(items[..i])
        invariant CheckIds(items[..i], {}).None?
        invariant CheckIds(items, {}) == CheckIds(items[i..], seen)
      {
        var id := ExternalIdOf(items[i].config);
        assert items[i..][0] == items[i] && items[i..][1..] == items[i + 1..];
        assert items[..i + 1][..i] == items[..i] && items[..i + 1] == items[..i] + [items[i]];
        TextIdsSnoc(items[..i], items[i]);
        CheckIdsSplits(items[..i + 1], {}, i);
        assert items[..i + 1][i..] == [items[i]];
        assert {} + TextIds(items[..i]) == seen;
        if !items[i].active || id.Missing? { continue; }
        if id.NotText? { return Some(NotAString); }
        if id.id in seen { return Some(NotUnique); }
        seen := seen + {id.id};
      }
      assert items[..|items|] == items;
      return None;
    }

    method CheckLocations(scope: Scope, items: seq<Item>) returns (error: Option<MappingError>)
      ensures error == Some(DuplicateLocation) <==> !DistinctLocations(items)
      ensures error.None? <==>
                && DistinctLocations(items)
                && forall i :: 0 <= i < |items| ==> items[i].location in scope.visible && SameMerchant(scope, items[i].location)
      ensures error.Some? ==> error.value == DuplicateLocation || error.value == LocationsNotFound
    {
      var wanted := set i | 0 <= i < |items| :: items[i].location;
      DistinctMeansNoRepeats(items);
      hide DistinctLocations;
      if |wanted| != |items| { return Some(DuplicateLocation); }
      var found := set l | l in wanted && l in scope.visible;
      SubsetOfSameSize(found, wanted);
      if |found| != |items| {
        var l :| l in wanted && l !in found;
        return Some(LocationsNotFound);
      }
      if exists l :: l in found && !SameMerchant(scope, l) { return Some(LocationsNotFound); }
      assert forall i :: 0 <= i < |items| ==> items[i].location in found;
      return None;
    }

    /** Update or create each requested row, then delete the others. */
    method Install(items: seq<Item>)
      modifies this
      ensures rows == Requested(items)
    {
      for i := 0 to |items|
        invariant forall l :: l in Requested(items[..i]) ==> l in rows && rows[l] == Requested(items[..i])[l]
      {
        assert items[..i + 1][..i] == items[..i];
        rows := rows[items[i].location := Mapping(items[i].config, items[i].active)];
      }
      assert items[..|items|] == items;
      RequestedKeys(items);
      var wanted := set i | 0 <= i < |items| :: items[i].location;
      rows := map l | l in rows && l in wanted :: rows[l];
    }

    /** Everything is validated before the first write. */
    method ReplaceLocationMappings(scope: Scope, items: seq<Item>) returns (error: Option<MappingError>)
      modifies this
      ensures error == (match Replace(old(rows), scope, items) case Ok(_) => None case Err(e) => Some(e))
      ensures rows == (match Replace(old(rows), scope, items) case Ok(t) => t case Err(_) => old(rows))
    {
      error := CheckLocations(scope, items);
      if error.Some? { return; }
      error := CheckRequest(items);
      if error.Some? { return; }
      Install(items);
    }
  }

  lemma {:induction false} RequestedKeys(items: seq<Item>)
    ensures Requested(items).Keys == set i | 0 <= i < |items| :: items[i].location
    ensures DistinctLocations(items) ==>
              forall i :: 0 <= i < |items| ==> Requested(items)[items[i].location] == Mapping(items[i].config, items[i].active)
    decreases |items|
  {
    if items != [] {
      var n := |items| - 1;
      var before := items[..n];
      RequestedKeys(before);
      forall l ensures l in Requested(items).Keys <==> l in set i | 0 <= i < |items| :: items[i].location {
        if l in Requested(before) {
          var i :| 0 <= i < |before| && before[i].location == l;
          assert items[i].location == l;
        }
        if i :| 0 <= i < |items| && items[i].location == l {
          if i < n { assert before[i].location == l; }
        }
      }
      if DistinctLocations(items) {
        assert DistinctLocations(before);
        forall i | 0 <= i < |items| ensures Requested(items)[items[i].location] == Mapping(items[i].config, items[i].active) {
          if i < n { assert before[i] == items[i]; }
        }
      }
    }
  }

  // --- uniqueness ---

  /** The active ids are strings, and no two are the same. */
  predicate Distinct(t: Table) {
    && (forall l :: l in t && t[l].active ==> !ExternalIdOf(t[l].config).NotText?)
    && (forall a, b :: a in t && b in t && a != b && t[a].active && t[b].active && ExternalIdOf(t[a].config).Text? ==>
          ExternalIdOf(t[a].config) != ExternalIdOf(t[b].config))
  }

  predicate ValidIds(items: seq<Item>, seen: set<string>) {
    && (forall i :: 0 <= i < |items| && items[i].active ==>
          var id := ExternalIdOf(items[i].config); !id.NotText? && (id.Text? ==> id.id !in seen))
    && (forall i, j :: 0 <= i < j < |items| && items[i].active && items[j].active && ExternalIdOf(items[i].config).Text? ==>
          ExternalIdOf(items[i].config) != ExternalIdOf(items[j].config))
  }

  /** The loop accepts exactly the requests whose active ids are distinct strings. */
  lemma {:induction false} CheckIdsIsExact(items: seq<Item>, seen: set<string>)
    ensures CheckIds(items, seen).None? <==> ValidIds(items, seen)
    decreases |items|
  {
    if items != [] {
      var id := ExternalIdOf(items[0].config);
      var rest := items[1..];
      var seen1 := if items[0].active && id.Text? then seen + {id.id} else seen;
      CheckIdsIsExact(rest, seen1);
      if ValidIds(items, seen) {
        forall i | 0 <= i < |rest| && rest[i].active
          ensures var d := ExternalIdOf(rest[i].config); !d.NotText? && (d.Text? ==> d.id !in seen1)
        {
          assert rest[i] == items[i + 1];
        }
        assert ValidIds(rest, seen1);
      }
      if ValidIds(rest, seen1) && !(items[0].active && (id.NotText? || (id.Text? && id.id in seen))) {
        assert forall i :: 0 < i < |items| ==> items[i] == rest[i - 1];
      }
      if items[0].active && (id.NotText? || (id.Text? && id.id in seen)) {
        assert !ValidIds(items, seen);
      }
    }
  }

  /** The tenant sees the location, and it and the integration are the merchant's. */
  predicate MayMap(scope: Scope, l: LocationId) {
    l in scope.visible && scope.visible[l] == scope.merchant && scope.owner == scope.merchant
  }

  /** The mapping is in use for this id. */
  predicate InUseFor(m: Mapping, id: string) {
    m.active && m.config != None && m.config.value.externalId == Text(id)
  }

  /** The mapping gives no id that counts: none, an empty text or another falsy value. */
  predicate GivesNoId(m: Mapping) {
    m.config == None || m.config.value.externalId == Missing || m.config.value.externalId == Text("") ||
    m.config.value.externalId == NotText(false)
  }

  /** A mapping is added exactly where the location may be mapped and is not yet, and -
      an active one - its id is a string that no active mapping is in use for. */
  lemma AddExactly(t: Table, scope: Scope, location: LocationId, config: Option<Config>, active: bool)
    ensures var r := Add(t, scope, location, config, active);
            && (r.Ok? <==>
                  && MayMap(scope, location) && location !in t
                  && (active && config.Some? ==>
                        && !config.value.externalId.NotText?
                        && (config.value.externalId.Text? ==> forall l :: l in t ==> !InUseFor(t[l], config.value.externalId.id))))
            && (r.Ok? ==> r.value == t[location := Mapping(config, active)])
            && (r == Err(LocationsNotFound) <==> !MayMap(scope, location))
            && (r == Err(NotAString) <==> MayMap(scope, location) && active && config.Some? && config.value.externalId.NotText?)
  {
    if config.Some? && config.value.externalId.Text? {
      var id := config.value.externalId.id;
      forall l | l in t ensures InUseFor(t[l], id) <==> l in WithId(t, id) {}
    }
  }

  lemma {:induction false} ChecksNameIds(items: seq<Item>, seen: set<string>)
    ensures CheckIds(items, seen).Some? ==> CheckIds(items, seen).value == NotAString || CheckIds(items, seen).value == NotUnique
    decreases |items|
  {
    if items != [] {
      var id := ExternalIdOf(items[0].config);
      ChecksNameIds(items[1..], if items[0].active && id.Text? then seen + {id.id} else seen);
    }
  }

  /** A replace leaves the old set, or installs exactly the requested one; it is
      accepted exactly when the whole request is sound. */
  lemma ReplaceIsAllOrNothing(t: Table, scope: Scope, items: seq<Item>)
    ensures Replace(t, scope, items).Ok? <==>
              && (forall i, j :: 0 <= i < j < |items| ==> items[i].location != items[j].location)
              && ValidIds(items, {})
              && (forall i :: 0 <= i < |items| ==> MayMap(scope, items[i].location))
    ensures Replace(t, scope, items) == Err(DuplicateLocation) <==> exists i, j :: 0 <= i < j < |items| && items[i].location == items[j].location
    ensures Replace(t, scope, items) == Err(LocationsNotFound) <==>
              && (forall i, j :: 0 <= i < j < |items| ==> items[i].location != items[j].location)
              && exists i :: 0 <= i < |items| && !MayMap(scope, items[i].location)
    ensures Replace(t, scope, items).Ok? ==>
              var after := Replace(t, scope, items).value;
              && after.Keys == (set i | 0 <= i < |items| :: items[i].location)
              && (forall i :: 0 <= i < |items| ==> after[items[i].location] == Mapping(items[i].config, items[i].active))
              && Distinct(after)
  {
    CheckIdsIsExact(items, {});
    ChecksNameIds(items, {});
    RequestedKeys(items);
    if Replace(t, scope, items).Ok? { RequestedDistinct(items); }
  }

  lemma RequestedDistinct(items: seq<Item>)
    requires DistinctLocations(items) && ValidIds(items, {})
    ensures Distinct(Requested(items))
  {
    RequestedKeys(items);
    var t := Requested(items);
    forall l | l in t && t[l].active ensures !ExternalIdOf(t[l].config).NotText? {
      var i :| 0 <= i < |items| && items[i].location == l;
    }
    forall a, b | a in t && b in t && a != b && t[a].active && t[b].active && ExternalIdOf(t[a].config).Text?
      ensures ExternalIdOf(t[a].config) != ExternalIdOf(t[b].config)
    {
      var i :| 0 <= i < |items| && items[i].location == a;
      var j :| 0 <= j < |items| && items[j].location == b;
    }
  }

  lemma AddKeepsDistinct(t: Table, scope: Scope, location: LocationId, config: Option<Config>, active: bool)
    requires Distinct(t) && Add(t, scope, location, config, active).Ok?
    ensures Distinct(Add(t, scope, location, config, active).value)
  {
    var id := ExternalIdOf(config);
    if active && id.Text? {
      forall l | l in t && t[l].active ensures ExternalIdOf(t[l].config) != id {
        assert l !in WithId(t, id.id);
      }
    }
  }

  // --- runs ---

  datatype Operation =
    | AddOne(scope: Scope, location: LocationId, config: Option<Config>, active: bool)
    | ReplaceAll(scope: Scope, items: seq<Item>)
    | Disconnect

  function Apply(t: Table, o: Operation): Table {
    match o
    case AddOne(scope, location, config, active) =>
      (match Add(t, scope, location, config, active) case Ok(after) => after case Err(_) => t)
    case ReplaceAll(scope, items) => (match Replace(t, scope, items) case Ok(after) => after case Err(_) => t)
    case Disconnect => Deactivate(t)
  }

  function Run(t: Table, ops: seq<Operation>): Table
    decreases |ops|
  {
    if ops == [] then t else Run(Apply(t, ops[0]), ops[1..])
  }

  lemma ApplyKeepsDistinct(t: Table, o: Operation)
    requires Distinct(t)
    ensures Distinct(Apply(t, o))
  {
    match o
    case AddOne(scope, location, config, active) =>
      if Add(t, scope, location, config, active).Ok? { AddKeepsDistinct(t, scope, location, config, active); }
    case ReplaceAll(scope, items) => ReplaceIsAllOrNothing(t, scope, items);
    case Disconnect =>
  }

  lemma {:induction false} RunKeepsDistinct(t: Table, ops: seq<Operation>)
    requires Distinct(t)
    ensures Distinct(Run(t, ops))
    decreases |ops|
  {
    if ops != [] {
      ApplyKeepsDistinct(t, ops[0]);
      RunKeepsDistinct(Apply(t, ops[0]), ops[1..]);
    }
  }

  lemma OneMatchAtMost(t: Table, id: string)
    requires Distinct(t)
    ensures |WithId(t, id)| <= 1
    ensures forall l :: l in WithId(t, id) ==> WithId(t, id) == {l}
  {
    if l :| l in WithId(t, id) {
      assert WithId(t, id) == {l};
    }
  }

  /** On every reachable table resolution is a function: no id has two matches, and
      the answer is l exactly when l is the only active mapping and has no id, or l
      is active under the sale's own id. */
  lemma ResolutionIsAFunction(ops: seq<Operation>, external: Option<string>, l: LocationId)
    ensures var t := Run(map[], ops);
            && (forall id :: |WithId(t, id)| <= 1)
            && (Resolve(t, external) == Some(l) <==>
                  || (l in t && t[l].active && (forall k :: k in t && k != l ==> !t[k].active) && GivesNoId(t[l]))
                  || (external.Some? && external.value != "" && l in t && InUseFor(t[l], external.value)))
  {
    var t := Run(map[], ops);
    RunKeepsDistinct(map[], ops);
    forall id ensures |WithId(t, id)| <= 1 { OneMatchAtMost(t, id); }
    if |Active(t)| == 1 { OneElement(Active(t)); }
    if l in t && t[l].active && (forall k :: k in t && k != l ==> !t[k].active) { assert Active(t) == {l}; }
    if Active(t) == {l} { forall k | k in t && k != l ensures !t[k].active { assert k !in Active(t); } }
    if external.Some? {
      OneMatchAtMost(t, external.value);
      if m :| m in WithId(t, external.value) { assert m in Active(t); }
    }
  }

  /** A disconnect keeps every mapping, inactive, and then nothing is resolved. */
  lemma DisconnectedResolvesNothing(t: Table, external: Option<string>)
    ensures Deactivate(t).Keys == t.Keys && forall l :: l in t ==> Deactivate(t)[l] == Mapping(t[l].config, false)
    ensures Resolve(Deactivate(t), external).None?
  {
    assert Active(Deactivate(t)) == {};
    if external.Some? { assert WithId(Deactivate(t), external.value) == {}; }
  }
}
