/** The adventure-finder worker's deterministic part: take the `"locations"`
    list out of the model's reply, choose the zoom, and sort the locations
    with usable coordinates into one marker group per category. */
module AdventureFinder {
  import opened PyStr
  import opened PyJson
  import opened Fences

  /** A marker's colour and glyph icon. */
  datatype Style = Style(color: string, icon: string)

  /** `CATEGORIES` */
  const Categories: map<string, Style> :=
    map["Hiking Trail" := Style("green", "leaf"),
        "Fishing Spot" := Style("blue", "tint"),
        "Campsite" := Style("orange", "home"),
        "Park" := Style("darkgreen", "tree-conifer"),
        "Scenic Viewpoint" := Style("purple", "eye-open"),
        "Kayaking/Canoeing Launch Point" := Style("cadetblue", "road"),
        "Mountain Biking Trail" := Style("red", "bicycle")]

  const UnknownStyle: Style := Style("gray", "question-sign")
  const UnknownGroup: string := "Unknown Category"
  const UnknownName: string := "Unknown Location"

  /** Every group a marker can land in: the seven categories and the unknown group. */
  const GroupNames: seq<string> :=
    ["Hiking Trail", "Fishing Spot", "Campsite", "Park", "Scenic Viewpoint",
     "Kayaking/Canoeing Launch Point", "Mountain Biking Trail", UnknownGroup]

  /** What reading `response.text` gave: the text, or an exception from the call. */
  datatype Reply = Text(text: string) | Raised(message: string)

  /** The parsed reply is a dict whose `"locations"` is a list. */
  predicate HasLocationList(data: Json) {
    data.JObj? && "locations" in data.fields && data.fields["locations"].JArr?
  }

  /** Lines 106-128: `adventure_locations` after the call, where `parse`
      stands for `json.loads`.  Any other shape of reply, and every
      exception, leaves the list empty. */
  function Locations(reply: Reply, parse: string -> Parsed): (locs: seq<Json>)
    ensures reply.Text? && reply.text != "" && parse(StripFences(reply.text)).Parsed?
            && HasLocationList(parse(StripFences(reply.text)).value) ==>
              locs == parse(StripFences(reply.text)).value.fields["locations"].items
    ensures locs == [] || (reply.Text? && reply.text != "" && parse(StripFences(reply.text)).Parsed?
                           && HasLocationList(parse(StripFences(reply.text)).value))
  {
    match reply
    case Raised(_) => []
    case Text(text) =>
      if text == "" then []
      else match parse(StripFences(text))
        case DecodeError => []
        case Parsed(data) =>
          // `"locations" in data` on a list or a text is a membership or
          // substring test, but indexing them with a text then raises, so
          // only a dict can yield a list.
          if data.JObj? && In("locations", data) == Some(true) && data.fields["locations"].JArr? then
            data.fields["locations"].items
          else []
  }

  /** A reply whose JSON is a text mentioning "locations" passes the `in`
      test but still yields no locations. */
  lemma TextMentioningLocations(text: string, parse: string -> Parsed)
    requires text != "" && parse(StripFences(text)) == Parsed(JStr("no locations"))
    ensures Locations(Text(text), parse) == []
  {}

  /** Line 136: zoom 11 for a radius of at most 20 miles, 10 beyond. */
  function Zoom(radiusMiles: real): (z: int)
    ensures z == 10 || z == 11
    ensures z == 11 <==> radiusMiles <= 20.0
  {
    if radiusMiles <= 20.0 then 11 else 10
  }

  /** A wider search never zooms the map in further. */
  lemma ZoomNonIncreasing(r1: real, r2: real)
    requires r1 <= r2
    ensures Zoom(r2) <= Zoom(r1)
  {}

  /** A map marker: the name and type as the model gave them (or their
      defaults), the converted coordinates, and the style. */
  datatype Marker = Marker(name: Json, kind: Json, latitude: real, longitude: real, style: Style)

  /** What the loop body does with one location. */
  datatype Placement = Skipped | Placed(group: string, marker: Marker)

  /** `CATEGORIES.get(loc_type, default)` for a hashable type. */
  function StyleOf(kind: Json): Style {
    if kind.JStr? && kind.s in Categories then Categories[kind.s] else UnknownStyle
  }

  /** The group a marker of this type goes to. */
  function GroupOf(kind: Json): (g: string)
    ensures g in GroupNames
  {
    if kind.JStr? && kind.s in Categories then kind.s else UnknownGroup
  }

  /** Lines 177-210 for one location: read the fields with their defaults,
      convert the coordinates, and skip the location when they do not convert
      or either is zero, or when anything else raises. */
  function Place(loc: Json, parseFloat: string -> Option<real>): (p: Placement)
    ensures p.Placed? ==> loc.JObj? && p.group in GroupNames
                          && p.marker.latitude != 0.0 && p.marker.longitude != 0.0
  {
    if !loc.JObj? then Skipped   // `loc.get` raises on anything but a dict
    else
      var f := loc.fields;
      var lat := ToFloat(GetOr(f, "latitude", JNum(0.0)), parseFloat);
      var lon := ToFloat(GetOr(f, "longitude", JNum(0.0)), parseFloat);
      var name := GetOr(f, "name", JStr(UnknownName));
      var kind := GetOr(f, "type", JStr(UnknownGroup));
      if !lat.Converted? || !lon.Converted? then Skipped
      else if lat.x == 0.0 || lon.x == 0.0 then Skipped
      else if !Hashable(kind) then Skipped   // `CATEGORIES.get` raises `TypeError`
      else Placed(GroupOf(kind), Marker(name, kind, lat.x, lon.x, StyleOf(kind)))
  }

  /** A location gets a marker exactly when it is a dict whose coordinates
      (0 when missing) both convert and are non-zero and whose type can be
      looked up; the marker keeps the coordinates, defaults a missing name and
      type, is styled by its category or grey, and joins its category's
      group or the unknown group. */
  lemma PlaceSpec(loc: Json, parseFloat: string -> Option<real>)
    ensures Place(loc, parseFloat).Placed? <==>
              loc.JObj?
              && ToFloat(GetOr(loc.fields, "latitude", JNum(0.0)), parseFloat).Converted?
              && ToFloat(GetOr(loc.fields, "longitude", JNum(0.0)), parseFloat).Converted?
              && ToFloat(GetOr(loc.fields, "latitude", JNum(0.0)), parseFloat).x != 0.0
              && ToFloat(GetOr(loc.fields, "longitude", JNum(0.0)), parseFloat).x != 0.0
              && Hashable(GetOr(loc.fields, "type", JStr(UnknownGroup)))
    ensures Place(loc, parseFloat).Placed? ==>
              var m := Place(loc, parseFloat).marker;
              var g := Place(loc, parseFloat).group;
              ToFloat(GetOr(loc.fields, "latitude", JNum(0.0)), parseFloat) == Converted(m.latitude)
              && ToFloat(GetOr(loc.fields, "longitude", JNum(0.0)), parseFloat) == Converted(m.longitude)
              && m.name == (if "name" in loc.fields then loc.fields["name"] else JStr(UnknownName))
              && m.kind == (if "type" in loc.fields then loc.fields["type"] else JStr(UnknownGroup))
              && (g in Categories <==> m.kind.JStr? && m.kind.s in Categories)
              && (g in Categories ==> m.kind == JStr(g) && m.style == Categories[g])
              && (g !in Categories ==> g == UnknownGroup && m.style == UnknownStyle)
  {}

  /** The markers of group `g`, in the order of their locations. */
  function GroupMarkers(locs: seq<Json>, g: string, parseFloat: string -> Option<real>): seq<Marker>
    decreases |locs|
  {
    if locs == [] then []
    else
      var p := Place(locs[|locs| - 1], parseFloat);
      GroupMarkers(locs[..|locs| - 1], g, parseFloat) + (if p.Placed? && p.group == g then [p.marker] else [])
  }

  /** Some location went to the unknown group. */
  predicate AnyUnknown(locs: seq<Json>, parseFloat: string -> Option<real>)
    decreases |locs|
  {
    locs != []
    && (AnyUnknown(locs[..|locs| - 1], parseFloat)
        || (Place(locs[|locs| - 1], parseFloat).Placed? && Place(locs[|locs| - 1], parseFloat).group == UnknownGroup))
  }

  /** `groups` holds exactly the groups built from `prefix`. */
  predicate Grouped(groups: map<string, seq<Marker>>, prefix: seq<Json>, parseFloat: string -> Option<real>) {
    groups.Keys == Categories.Keys + (if AnyUnknown(prefix, parseFloat) then {UnknownGroup} else {})
    && forall g :: g in groups ==> groups[g] == GroupMarkers(prefix, g, parseFloat)
  }

  /** Lines 170-210: `feature_groups` starts with an empty group per
      category; each marker is added to its type's group if that name is
      already a group and to the unknown group (created on first use)
      otherwise. */
  method BuildGroups(locs: seq<Json>, parseFloat: string -> Option<real>) returns (groups: map<string, seq<Marker>>)
    ensures groups.Keys == Categories.Keys + (if AnyUnknown(locs, parseFloat) then {UnknownGroup} else {})
    ensures forall g :: g in groups ==> groups[g] == GroupMarkers(locs, g, parseFloat)
  {
    groups := map g | g in Categories :: [];
    for i := 0 to |locs|
      invariant Grouped(groups, locs[..i], parseFloat)
    {
      assert locs[..i + 1] == locs[..i] + [locs[i]];
      var p := Place(locs[i], parseFloat);
      if p.Placed? {
        var kind := p.marker.kind;
        var target := if kind.JStr? && kind.s in groups then kind.s else UnknownGroup;
        var current := if target in groups then groups[target] else [];
        AddKeepsGrouped(groups, locs[..i], locs[i], target, parseFloat);
        groups := groups[target := current + [p.marker]];
      } else {
        SkipKeepsGrouped(groups, locs[..i], locs[i], parseFloat);
      }
    }
    assert locs[..|locs|] == locs;
  }

  /** Adding a placed location's marker to the group the loop picks keeps
      the groups exact. */
  lemma AddKeepsGrouped(groups: map<string, seq<Marker>>, prefix: seq<Json>, loc: Json, target: string,
                        parseFloat: string -> Option<real>)
    requires Grouped(groups, prefix, parseFloat)
    requires Place(loc, parseFloat).Placed?
    requires var kind := Place(loc, parseFloat).marker.kind;
             target == if kind.JStr? && kind.s in groups then kind.s else UnknownGroup
    ensures Grouped(groups[target := (if target in groups then groups[target] else []) + [Place(loc, parseFloat).marker]],
                    prefix + [loc], parseFloat)
  {
    var p := Place(loc, parseFloat);
    var next := prefix + [loc];
    TargetIsGroup(groups.Keys, loc, parseFloat);
    AddedKeys(groups.Keys, prefix, loc, parseFloat);
    var current := if target in groups then groups[target] else [];
    var after := groups[target := current + [p.marker]];
    assert after.Keys == groups.Keys + {target};
    forall g | g in after
      ensures after[g] == GroupMarkers(next, g, parseFloat)
    {
      AddedGroup(groups, prefix, loc, target, g, parseFloat);
    }
  }

  /** The loop's update adds the marker's group to the keys, which is a new
      key only for the first marker of unknown type. */
  lemma AddedKeys(keys: set<string>, prefix: seq<Json>, loc: Json, parseFloat: string -> Option<real>)
    requires keys == Categories.Keys + (if AnyUnknown(prefix, parseFloat) then {UnknownGroup} else {})
    requires Place(loc, parseFloat).Placed?
    ensures keys + {Place(loc, parseFloat).group}
         == Categories.Keys + (if AnyUnknown(prefix + [loc], parseFloat) then {UnknownGroup} else {})
    ensures Place(loc, parseFloat).group !in keys ==>
              Place(loc, parseFloat).group == UnknownGroup && !AnyUnknown(prefix, parseFloat)
  {
    AnyUnknownSnoc(prefix, loc, parseFloat);
  }

  /** One group after the loop's update: the target gains the marker, the
      others are as before. */
  lemma AddedGroup(groups: map<string, seq<Marker>>, prefix: seq<Json>, loc: Json, target: string, g: string,
                   parseFloat: string -> Option<real>)
    requires Grouped(groups, prefix, parseFloat)
    requires Place(loc, parseFloat).Placed? && target == Place(loc, parseFloat).group
    requires target !in groups ==> target == UnknownGroup && !AnyUnknown(prefix, parseFloat)
    requires g in groups || g == target
    ensures groups[target := (if target in groups then groups[target] else []) + [Place(loc, parseFloat).marker]][g]
         == GroupMarkers(prefix + [loc], g, parseFloat)
  {
    GroupMarkersSnoc(prefix, loc, g, parseFloat);
    if g == target && target !in groups {
      NoUnknownMarkers(prefix, parseFloat);
    }
  }

  lemma GroupMarkersSnoc(prefix: seq<Json>, loc: Json, g: string, parseFloat: string -> Option<real>)
    ensures GroupMarkers(prefix + [loc], g, parseFloat)
         == GroupMarkers(prefix, g, parseFloat)
            + (if Place(loc, parseFloat).Placed? && Place(loc, parseFloat).group == g
               then [Place(loc, parseFloat).marker] else [])
  {
    assert (prefix + [loc])[..|prefix|] == prefix;
  }

  lemma AnyUnknownSnoc(prefix: seq<Json>, loc: Json, parseFloat: string -> Option<real>)
    ensures AnyUnknown(prefix + [loc], parseFloat)
        <==> AnyUnknown(prefix, parseFloat)
             || (Place(loc, parseFloat).Placed? && Place(loc, parseFloat).group == UnknownGroup)
  {
    assert (prefix + [loc])[..|prefix|] == prefix;
  }

  /** The group the loop picks for a placed location is its `GroupOf`
      group, as long as the only group beyond the categories is the unknown one. */
  lemma TargetIsGroup(keys: set<string>, loc: Json, parseFloat: string -> Option<real>)
    requires Categories.Keys <= keys <= Categories.Keys + {UnknownGroup}
    requires Place(loc, parseFloat).Placed?
    ensures var kind := Place(loc, parseFloat).marker.kind;
            (if kind.JStr? && kind.s in keys then kind.s else UnknownGroup) == Place(loc, parseFloat).group
  {
    PlaceSpec(loc, parseFloat);
  }

  /** A skipped location changes no group. */
  lemma SkipKeepsGrouped(groups: map<string, seq<Marker>>, prefix: seq<Json>, loc: Json,
                         parseFloat: string -> Option<real>)
    requires Grouped(groups, prefix, parseFloat)
    requires !Place(loc, parseFloat).Placed?
    ensures Grouped(groups, prefix + [loc], parseFloat)
  {
    var next := prefix + [loc];
    assert next[..|next| - 1] == prefix;
  }

  /** The unknown group stays empty until some location is placed in it. */
  lemma {:induction false} NoUnknownMarkers(locs: seq<Json>, parseFloat: string -> Option<real>)
    requires !AnyUnknown(locs, parseFloat)
    ensures GroupMarkers(locs, UnknownGroup, parseFloat) == []
    decreases |locs|
  {
    if locs != [] {
      NoUnknownMarkers(locs[..|locs| - 1], parseFloat);
    }
  }

  /** Sum over `names` of the sizes of those groups. */
  function GroupTotal(names: seq<string>, locs: seq<Json>, parseFloat: string -> Option<real>): nat {
    if names == [] then 0
    else |GroupMarkers(locs, names[0], parseFloat)| + GroupTotal(names[1..], locs, parseFloat)
  }

  /** Number of locations that get a marker. */
  function PlacedCount(locs: seq<Json>, parseFloat: string -> Option<real>): nat
    decreases |locs|
  {
    if locs == [] then 0
    else PlacedCount(locs[..|locs| - 1], parseFloat) + (if Place(locs[|locs| - 1], parseFloat).Placed? then 1 else 0)
  }

  /** How many of `names` are `g`. */
  function Occurrences(names: seq<string>, g: string): nat {
    if names == [] then 0 else (if names[0] == g then 1 else 0) + Occurrences(names[1..], g)
  }

  lemma {:induction false} OccursOnce(names: seq<string>, g: string)
    requires g in names
    requires forall i, j :: 0 <= i < j < |names| ==> names[i] != names[j]
    ensures Occurrences(names, g) == 1
  {
    if names[0] == g {
      NotOccurring(names[1..], g);
    } else {
      OccursOnce(names[1..], g);
    }
  }

  lemma {:induction false} NotOccurring(names: seq<string>, g: string)
    requires g !in names
    ensures Occurrences(names, g) == 0
  {
    if names != [] {
      NotOccurring(names[1..], g);
    }
  }

  lemma {:induction false} GroupTotalSnoc(names: seq<string>, locs: seq<Json>, loc: Json, parseFloat: string -> Option<real>)
    ensures GroupTotal(names, locs + [loc], parseFloat)
         == GroupTotal(names, locs, parseFloat)
            + (if Place(loc, parseFloat).Placed? then Occurrences(names, Place(loc, parseFloat).group) else 0)
  {
    assert (locs + [loc])[..|locs|] == locs;
    if names != [] {
      GroupTotalSnoc(names[1..], locs, loc, parseFloat);
    }
  }

  /** The groups partition the marked locations: summed over all eight
      groups, the group sizes equal the number of locations that got a
      marker, so none is lost and none is in two groups. */
  lemma {:induction false} GroupsPartition(locs: seq<Json>, parseFloat: string -> Option<real>)
    ensures GroupTotal(GroupNames, locs, parseFloat) == PlacedCount(locs, parseFloat)
    decreases |locs|
  {
    if locs == [] {
      ZeroTotal(GroupNames, parseFloat);
    } else {
      var init := locs[..|locs| - 1];
      var last := locs[|locs| - 1];
      GroupsPartition(init, parseFloat);
      assert locs == init + [last];
      GroupTotalSnoc(GroupNames, init, last, parseFloat);
      var p := Place(last, parseFloat);
      if p.Placed? {
        OccursOnce(GroupNames, p.group);
      }
    }
  }

  lemma {:induction false} ZeroTotal(names: seq<string>, parseFloat: string -> Option<real>)
    ensures GroupTotal(names, [], parseFloat) == 0
  {
    if names != [] {
      ZeroTotal(names[1..], parseFloat);
    }
  }

  /** How the worker ends: its exit status and whether it wrote the map file. */
  datatype Exit = Exit(code: int, mapWritten: bool)

  /** The whole script, lines 41-229.  `setupOk` says that configuring the
      client and loading the model (lines 43-55) both succeeded; either
      failure exits with status 1.  `renderFails` is an exception inside the
      mapping block, which is reported and leaves the status at 0. */
  function Finish(setupOk: bool, locs: seq<Json>, renderFails: bool): (e: Exit)
    ensures e.code == 0 <==> setupOk
    ensures e.code != 0 ==> e.code == 1 && !e.mapWritten
    ensures e.mapWritten <==> setupOk && locs != [] && !renderFails
  {
    if !setupOk then Exit(1, false)
    else Exit(0, locs != [] && !renderFails)
  }
}

/** How the backend's trip planner treats what the adventure finder did. */
module AdventureThroughBackend {
  import opened PyJson
  import opened Http
  import opened RunScript
  import opened AdventureFinder
  import PlanTrip

  /** The status the worker process ended with, as the backend sees it. */
  function Worker(setupOk: bool, reply: Reply, parse: string -> Parsed, renderFails: bool,
                  stdout: string, stderr: string, description: string, scriptPath: string): (r: RunResult)
    ensures r.success <==> setupOk
    ensures r.output == stdout
  {
    var e := Finish(setupOk, Locations(reply, parse), renderFails);
    RunScript.Run("adventure_finder.py", scriptPath, Exited(e.code, stdout, stderr, description))
  }

  /** A reply without a usable `"locations"` list writes no map, so unless an
      older map file is still in place the trip planner answers 500. */
  lemma NoLocationsNoMap(setupOk: bool, reply: Reply, parse: string -> Parsed, renderFails: bool,
                         stdout: string, stderr: string, description: string, scriptPath: string,
                         staleMap: bool, mapPath: string)
    requires Locations(reply, parse) == [] && !staleMap
    ensures var r := Worker(setupOk, reply, parse, renderFails, stdout, stderr, description, scriptPath);
            var written := Finish(setupOk, Locations(reply, parse), renderFails).mapWritten;
            var answer := PlanTrip.Outcome(r, staleMap || written, mapPath);
            IsFailure(answer) && answer.JsonResponse? && answer.status == 500
  {}

  /** A set-up worker that got locations and rendered them leads to the
      map's URL. */
  lemma LocationsGiveMapUrl(reply: Reply, parse: string -> Parsed,
                            stdout: string, stderr: string, description: string, scriptPath: string,
                            staleMap: bool, mapPath: string)
    requires Locations(reply, parse) != []
    ensures var r := Worker(true, reply, parse, false, stdout, stderr, description, scriptPath);
            var written := Finish(true, Locations(reply, parse), false).mapWritten;
            PlanTrip.Outcome(r, staleMap || written, mapPath)
              == Success(map["map_url" := JStr("/" + PlanTrip.MapFilename)])
  {}
}
