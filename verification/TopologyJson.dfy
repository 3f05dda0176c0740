/** The topology export (`topology_snapshot_to_json` in src/c_api.rs). */
module TopologyJson {
  import opened Json
  import opened JsonPrinting
  import opened SnapshotKeys
  import JsonRoundTrip

  datatype Board = Board(senderId: string, reachableEndpoints: seq<nat>, reachableTimesyncSources: seq<string>,
    connections: seq<string>)

  datatype Link = Link(source: string, target: string)

  datatype Announcer = Announcer(senderId: string, reachableEndpoints: seq<nat>,
    reachableNetworkVariables: seq<nat>, reachableTimesyncSources: seq<string>, routers: seq<Board>,
    lastSeenMs: nat, ageMs: nat)

  datatype Route = Route(sideId: nat, sideName: string, reachableEndpoints: seq<nat>,
    reachableNetworkVariables: seq<nat>, reachableTimesyncSources: seq<string>, announcers: seq<Announcer>,
    lastSeenMs: nat, ageMs: nat)

  datatype Topology = Topology(advertisedEndpoints: seq<nat>, advertisedTimesyncSources: seq<string>,
    routers: seq<Board>, links: seq<Link>, routes: seq<Route>, currentAnnounceIntervalMs: nat, nextAnnounceMs: nat)

  // ---- the trees ----

  function BoardTree(names: Names, x: Board): Tree {
    var m := Member(NoMembers, SENDER_ID, Str(x.senderId));
    var m := Member(m, REACHABLE_ENDPOINTS, Array(NameTree(names), x.reachableEndpoints));
    var m := Member(m, REACHABLE_ENDPOINT_IDS, Array(NumTree, x.reachableEndpoints));
    var m := Member(m, REACHABLE_TIMESYNC_SOURCES, Array(StrTree, x.reachableTimesyncSources));
    var m := Member(m, CONNECTIONS, Array(StrTree, x.connections));
    Obj(m)
  }

  function BoardTreeIn(names: Names): Board -> Tree { x => BoardTree(names, x) }

  function LinkTree(x: Link): Tree {
    var m := Member(NoMembers, SOURCE, Str(x.source));
    var m := Member(m, TARGET, Str(x.target));
    Obj(m)
  }

  function AnnouncerTree(names: Names, x: Announcer): Tree {
    var m := Member(NoMembers, SENDER_ID, Str(x.senderId));
    var m := Member(m, REACHABLE_ENDPOINTS, Array(NameTree(names), x.reachableEndpoints));
    var m := Member(m, REACHABLE_ENDPOINT_IDS, Array(NumTree, x.reachableEndpoints));
    var m := Member(m, REACHABLE_NETWORK_VARIABLES, Array(NumTree, x.reachableNetworkVariables));
    var m := Member(m, REACHABLE_TIMESYNC_SOURCES, Array(StrTree, x.reachableTimesyncSources));
    var m := Member(m, ROUTERS, Array(BoardTreeIn(names), x.routers));
    var m := Member(m, LAST_SEEN_MS, Num(x.lastSeenMs));
    var m := Member(m, AGE_MS, Num(x.ageMs));
    Obj(m)
  }

  function AnnouncerTreeIn(names: Names): Announcer -> Tree { x => AnnouncerTree(names, x) }

  function RouteTree(names: Names, x: Route): Tree {
    var m := Member(NoMembers, SIDE_ID, Num(x.sideId));
    var m := Member(m, SIDE_NAME, Str(x.sideName));
    var m := Member(m, REACHABLE_ENDPOINTS, Array(NameTree(names), x.reachableEndpoints));
    var m := Member(m, REACHABLE_ENDPOINT_IDS, Array(NumTree, x.reachableEndpoints));
    var m := Member(m, REACHABLE_NETWORK_VARIABLES, Array(NumTree, x.reachableNetworkVariables));
    var m := Member(m, REACHABLE_TIMESYNC_SOURCES, Array(StrTree, x.reachableTimesyncSources));
    var m := Member(m, ANNOUNCERS, Array(AnnouncerTreeIn(names), x.announcers));
    var m := Member(m, LAST_SEEN_MS, Num(x.lastSeenMs));
    var m := Member(m, AGE_MS, Num(x.ageMs));
    Obj(m)
  }

  function RouteTreeIn(names: Names): Route -> Tree { x => RouteTree(names, x) }

  function TopologyTree(names: Names, x: Topology): Tree {
    var m := Member(NoMembers, ADVERTISED_ENDPOINTS, Array(NameTree(names), x.advertisedEndpoints));
    var m := Member(m, ADVERTISED_ENDPOINT_IDS, Array(NumTree, x.advertisedEndpoints));
    var m := Member(m, ADVERTISED_TIMESYNC_SOURCES, Array(StrTree, x.advertisedTimesyncSources));
    var m := Member(m, ROUTERS, Array(BoardTreeIn(names), x.routers));
    var m := Member(m, LINKS, Array(LinkTree, x.links));
    var m := Member(m, ROUTES, Array(RouteTreeIn(names), x.routes));
    var m := Member(m, CURRENT_ANNOUNCE_INTERVAL_MS, Num(x.currentAnnounceIntervalMs));
    var m := Member(m, NEXT_ANNOUNCE_MS, Num(x.nextAnnounceMs));
    Obj(m)
  }

  // ---- the printers ----

  method PushBoard(out: string, names: Names, x: Board) returns (r: string)
    ensures r == out + Text(BoardTree(names, x))
  {
    hide Text, Opened, Awaiting;
    r := OpenObject(out, "{");
    ghost var ms := NoMembers;
    r, ms := StrField(r, "\"" + SENDER_ID + "\":", SENDER_ID, x.senderId, out, ms);
    r, ms := NamesField(
      r, ",\"" + REACHABLE_ENDPOINTS + "\":", REACHABLE_ENDPOINTS, names, x.reachableEndpoints, out, ms);
    r, ms := NumbersField(
      r, ",\"" + REACHABLE_ENDPOINT_IDS + "\":", REACHABLE_ENDPOINT_IDS, x.reachableEndpoints, out, ms);
    r, ms := StringsField(
      r, ",\"" + REACHABLE_TIMESYNC_SOURCES + "\":", REACHABLE_TIMESYNC_SOURCES, x.reachableTimesyncSources, out,
      ms);
    r, ms := StringsField(r, ",\"" + CONNECTIONS + "\":", CONNECTIONS, x.connections, out, ms);
    r := CloseObject(r, "}", out, ms);
  }

  method PushBoards(out: string, names: Names, xs: seq<Board>, ghost base: string) returns (r: string)
    requires out == Listing(base, BoardTreeIn(names), xs, 0)
    ensures r == Listing(base, BoardTreeIn(names), xs, |xs|)
  {
    hide Listing, Text, BoardTree;
    r := out;
    for i := 0 to |xs|
      invariant r == Listing(base, BoardTreeIn(names), xs, i)
    {
      ListingStep(base, BoardTreeIn(names), xs, i);
      if i != 0 {
        r := r + ",";
      }
      r := PushBoard(r, names, xs[i]);
    }
  }

  method PushLink(out: string, x: Link) returns (r: string)
    ensures r == out + Text(LinkTree(x))
  {
    hide Text, Opened, Awaiting;
    r := OpenObject(out, "{");
    ghost var ms := NoMembers;
    r, ms := StrField(r, "\"" + SOURCE + "\":", SOURCE, x.source, out, ms);
    r, ms := StrField(r, ",\"" + TARGET + "\":", TARGET, x.target, out, ms);
    r := CloseObject(r, "}", out, ms);
  }

  method PushLinks(out: string, xs: seq<Link>, ghost base: string) returns (r: string)
    requires out == Listing(base, LinkTree, xs, 0)
    ensures r == Listing(base, LinkTree, xs, |xs|)
  {
    hide Listing, Text, LinkTree;
    r := out;
    for i := 0 to |xs|
      invariant r == Listing(base, LinkTree, xs, i)
    {
      ListingStep(base, LinkTree, xs, i);
      if i != 0 {
        r := r + ",";
      }
      r := PushLink(r, xs[i]);
    }
  }

  method PushAnnouncer(out: string, names: Names, x: Announcer) returns (r: string)
    ensures r == out + Text(AnnouncerTree(names, x))
  {
    hide Text, Opened, Awaiting, Listing;
    r := OpenObject(out, "{");
    ghost var ms := NoMembers;
    r, ms := StrField(r, "\"" + SENDER_ID + "\":", SENDER_ID, x.senderId, out, ms);
    r, ms := NamesField(
      r, ",\"" + REACHABLE_ENDPOINTS + "\":", REACHABLE_ENDPOINTS, names, x.reachableEndpoints, out, ms);
    r, ms := NumbersField(
      r, ",\"" + REACHABLE_ENDPOINT_IDS + "\":", REACHABLE_ENDPOINT_IDS, x.reachableEndpoints, out, ms);
    r := PushKeyArray(
      r, ",\"" + REACHABLE_NETWORK_VARIABLES + "\":[", REACHABLE_NETWORK_VARIABLES, NumTree,
      x.reachableNetworkVariables, out, ms);
    r := PushNumberItems(r, x.reachableNetworkVariables, Awaiting(out, ms, REACHABLE_NETWORK_VARIABLES));
    r, ms := EndArray(r, "]", REACHABLE_NETWORK_VARIABLES, NumTree, x.reachableNetworkVariables, out, ms);
    r, ms := StringsField(
      r, ",\"" + REACHABLE_TIMESYNC_SOURCES + "\":", REACHABLE_TIMESYNC_SOURCES, x.reachableTimesyncSources, out,
      ms);
    r := PushKeyArray(r, ",\"" + ROUTERS + "\":[", ROUTERS, BoardTreeIn(names), x.routers, out, ms);
    r := PushBoards(r, names, x.routers, Awaiting(out, ms, ROUTERS));
    r, ms := EndArrayNum(
      r, "],\"" + LAST_SEEN_MS + "\":", ROUTERS, BoardTreeIn(names), x.routers, LAST_SEEN_MS, x.lastSeenMs, out,
      ms);
    r, ms := NumField(r, ",\"" + AGE_MS + "\":", AGE_MS, x.ageMs, out, ms);
    r := CloseObject(r, "}", out, ms);
  }

  method PushAnnouncers(out: string, names: Names, xs: seq<Announcer>, ghost base: string) returns (r: string)
    requires out == Listing(base, AnnouncerTreeIn(names), xs, 0)
    ensures r == Listing(base, AnnouncerTreeIn(names), xs, |xs|)
  {
    hide Listing, Text, AnnouncerTree;
    r := out;
    for i := 0 to |xs|
      invariant r == Listing(base, AnnouncerTreeIn(names), xs, i)
    {
      ListingStep(base, AnnouncerTreeIn(names), xs, i);
      if i != 0 {
        r := r + ",";
      }
      r := PushAnnouncer(r, names, xs[i]);
    }
  }

  method PushRoute(out: string, names: Names, x: Route) returns (r: string)
    ensures r == out + Text(RouteTree(names, x))
  {
    hide Text, Opened, Awaiting, Listing;
    r := OpenObject(out, "{");
    ghost var ms := NoMembers;
    r, ms := NumField(r, "\"" + SIDE_ID + "\":", SIDE_ID, x.sideId, out, ms);
    r, ms := StrField(r, ",\"" + SIDE_NAME + "\":", SIDE_NAME, x.sideName, out, ms);
    r, ms := NamesField(
      r, ",\"" + REACHABLE_ENDPOINTS + "\":", REACHABLE_ENDPOINTS, names, x.reachableEndpoints, out, ms);
    r, ms := NumbersField(
      r, ",\"" + REACHABLE_ENDPOINT_IDS + "\":", REACHABLE_ENDPOINT_IDS, x.reachableEndpoints, out, ms);
    r := PushKeyArray(
      r, ",\"" + REACHABLE_NETWORK_VARIABLES + "\":[", REACHABLE_NETWORK_VARIABLES, NumTree,
      x.reachableNetworkVariables, out, ms);
    r := PushNumberItems(r, x.reachableNetworkVariables, Awaiting(out, ms, REACHABLE_NETWORK_VARIABLES));
    r, ms := EndArray(r, "]", REACHABLE_NETWORK_VARIABLES, NumTree, x.reachableNetworkVariables, out, ms);
    r, ms := StringsField(
      r, ",\"" + REACHABLE_TIMESYNC_SOURCES + "\":", REACHABLE_TIMESYNC_SOURCES, x.reachableTimesyncSources, out,
      ms);
    r := PushKeyArray(r, ",\"" + ANNOUNCERS + "\":[", ANNOUNCERS, AnnouncerTreeIn(names), x.announcers, out, ms);
    r := PushAnnouncers(r, names, x.announcers, Awaiting(out, ms, ANNOUNCERS));
    r, ms := EndArrayNum(
      r, "],\"" + LAST_SEEN_MS + "\":", ANNOUNCERS, AnnouncerTreeIn(names), x.announcers, LAST_SEEN_MS,
      x.lastSeenMs, out, ms);
    r, ms := NumField(r, ",\"" + AGE_MS + "\":", AGE_MS, x.ageMs, out, ms);
    r := CloseObject(r, "}", out, ms);
  }

  method PushRoutes(out: string, names: Names, xs: seq<Route>, ghost base: string) returns (r: string)
    requires out == Listing(base, RouteTreeIn(names), xs, 0)
    ensures r == Listing(base, RouteTreeIn(names), xs, |xs|)
  {
    hide Listing, Text, RouteTree;
    r := out;
    for i := 0 to |xs|
      invariant r == Listing(base, RouteTreeIn(names), xs, i)
    {
      ListingStep(base, RouteTreeIn(names), xs, i);
      if i != 0 {
        r := r + ",";
      }
      r := PushRoute(r, names, xs[i]);
    }
  }

  method TopologyToJson(names: Names, x: Topology) returns (r: string)
    ensures r == Text(TopologyTree(names, x))
  {
    hide Text, Opened, Awaiting, Listing;
    ghost var out := [];
    r := OpenObject([], "{");
    ghost var ms := NoMembers;
    r, ms := NamesField(
      r, "\"" + ADVERTISED_ENDPOINTS + "\":", ADVERTISED_ENDPOINTS, names, x.advertisedEndpoints, out, ms);
    r, ms := NumbersField(
      r, ",\"" + ADVERTISED_ENDPOINT_IDS + "\":", ADVERTISED_ENDPOINT_IDS, x.advertisedEndpoints, out, ms);
    r, ms := StringsField(
      r, ",\"" + ADVERTISED_TIMESYNC_SOURCES + "\":", ADVERTISED_TIMESYNC_SOURCES, x.advertisedTimesyncSources, out,
      ms);
    r := PushKeyArray(r, ",\"" + ROUTERS + "\":[", ROUTERS, BoardTreeIn(names), x.routers, out, ms);
    r := PushBoards(r, names, x.routers, Awaiting(out, ms, ROUTERS));
    r, ms := EndArray(r, "]", ROUTERS, BoardTreeIn(names), x.routers, out, ms);
    r := PushKeyArray(r, ",\"" + LINKS + "\":[", LINKS, LinkTree, x.links, out, ms);
    r := PushLinks(r, x.links, Awaiting(out, ms, LINKS));
    r, ms := EndArray(r, "]", LINKS, LinkTree, x.links, out, ms);
    r := PushKeyArray(r, ",\"" + ROUTES + "\":[", ROUTES, RouteTreeIn(names), x.routes, out, ms);
    r := PushRoutes(r, names, x.routes, Awaiting(out, ms, ROUTES));
    r, ms := EndArrayNum(
      r, "],\"" + CURRENT_ANNOUNCE_INTERVAL_MS + "\":", ROUTES, RouteTreeIn(names), x.routes,
      CURRENT_ANNOUNCE_INTERVAL_MS, x.currentAnnounceIntervalMs, out, ms);
    r, ms := NumField(r, ",\"" + NEXT_ANNOUNCE_MS + "\":", NEXT_ANNOUNCE_MS, x.nextAnnounceMs, out, ms);
    r := CloseObject(r, "}", out, ms);
  }

  // ---- the trees determine the snapshot ----

  lemma BoardDetermined(names: Names, a: Board, b: Board)
    requires BoardTree(names, a) == BoardTree(names, b)
    ensures a == b
  {
    hide Injective, Listed;
    LeavesInjective();
    ListedInjective(NumTree, a.reachableEndpoints, b.reachableEndpoints);
    ListedInjective(StrTree, a.reachableTimesyncSources, b.reachableTimesyncSources);
    ListedInjective(StrTree, a.connections, b.connections);
  }

  lemma BoardsInjective(names: Names)
    ensures Injective(BoardTreeIn(names))
  {
    hide BoardTree;
    forall a: Board, b: Board | BoardTreeIn(names)(a) == BoardTreeIn(names)(b)
      ensures a == b
    {
      BoardDetermined(names, a, b);
    }
  }

  lemma LinksInjective()
    ensures Injective(LinkTree)
  {
  }

  lemma AnnouncerDetermined(names: Names, a: Announcer, b: Announcer)
    requires AnnouncerTree(names, a) == AnnouncerTree(names, b)
    ensures a == b
  {
    hide Injective, Listed, BoardTree;
    LeavesInjective();
    ListedInjective(NumTree, a.reachableEndpoints, b.reachableEndpoints);
    ListedInjective(NumTree, a.reachableNetworkVariables, b.reachableNetworkVariables);
    ListedInjective(StrTree, a.reachableTimesyncSources, b.reachableTimesyncSources);
    BoardsInjective(names);
    ListedInjective(BoardTreeIn(names), a.routers, b.routers);
  }

  lemma AnnouncersInjective(names: Names)
    ensures Injective(AnnouncerTreeIn(names))
  {
    hide AnnouncerTree;
    forall a: Announcer, b: Announcer | AnnouncerTreeIn(names)(a) == AnnouncerTreeIn(names)(b)
      ensures a == b
    {
      AnnouncerDetermined(names, a, b);
    }
  }

  lemma RouteDetermined(names: Names, a: Route, b: Route)
    requires RouteTree(names, a) == RouteTree(names, b)
    ensures a == b
  {
    hide Injective, Listed, AnnouncerTree;
    LeavesInjective();
    ListedInjective(NumTree, a.reachableEndpoints, b.reachableEndpoints);
    ListedInjective(NumTree, a.reachableNetworkVariables, b.reachableNetworkVariables);
    ListedInjective(StrTree, a.reachableTimesyncSources, b.reachableTimesyncSources);
    AnnouncersInjective(names);
    ListedInjective(AnnouncerTreeIn(names), a.announcers, b.announcers);
  }

  lemma RoutesInjective(names: Names)
    ensures Injective(RouteTreeIn(names))
  {
    hide RouteTree;
    forall a: Route, b: Route | RouteTreeIn(names)(a) == RouteTreeIn(names)(b)
      ensures a == b
    {
      RouteDetermined(names, a, b);
    }
  }

  lemma TopologyDetermined(names: Names, a: Topology, b: Topology)
    requires TopologyTree(names, a) == TopologyTree(names, b)
    ensures a == b
  {
    hide Injective, Listed, BoardTree, LinkTree, RouteTree;
    LeavesInjective();
    ListedInjective(NumTree, a.advertisedEndpoints, b.advertisedEndpoints);
    ListedInjective(StrTree, a.advertisedTimesyncSources, b.advertisedTimesyncSources);
    BoardsInjective(names);
    ListedInjective(BoardTreeIn(names), a.routers, b.routers);
    LinksInjective();
    ListedInjective(LinkTree, a.links, b.links);
    RoutesInjective(names);
    ListedInjective(RouteTreeIn(names), a.routes, b.routes);
  }

  /** Two different snapshots never export the same document. */
  lemma TopologyExportDetermines(names: Names, a: Topology, b: Topology)
    requires Text(TopologyTree(names, a)) == Text(TopologyTree(names, b))
    ensures a == b
  {
    hide Text, TopologyTree;
    JsonRoundTrip.TextDeterminesTree(TopologyTree(names, a), TopologyTree(names, b));
    TopologyDetermined(names, a, b);
  }
}
