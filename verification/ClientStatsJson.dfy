/** The client statistics export (`client_stats_snapshot_to_json` in src/c_api.rs). */
module ClientStatsJson {
  import opened Prelude
  import opened Json
  import opened JsonPrinting
  import opened SnapshotKeys
  import JsonRoundTrip

  datatype ClientStats = ClientStats(senderId: string, connected: bool, sideIds: seq<nat>, sideNames: seq<string>,
    lastSeenMs: Option<nat>, ageMs: Option<nat>, reachableEndpoints: seq<nat>,
    reachableTimesyncSources: seq<string>, packetsSent: nat, packetsReceived: nat, bytesSent: nat,
    bytesReceived: nat)

  // ---- the trees ----

  function ClientStatsTree(names: Names, x: ClientStats): Tree {
    var m := Member(NoMembers, SENDER_ID, Str(x.senderId));
    var m := Member(m, CONNECTED, Bool(x.connected));
    var m := Member(m, SIDE_IDS, Array(NumTree, x.sideIds));
    var m := Member(m, SIDE_NAMES, Array(StrTree, x.sideNames));
    var m := Member(m, LAST_SEEN_MS, OptionTree(x.lastSeenMs));
    var m := Member(m, AGE_MS, OptionTree(x.ageMs));
    var m := Member(m, REACHABLE_ENDPOINTS, Array(NameTree(names), x.reachableEndpoints));
    var m := Member(m, REACHABLE_ENDPOINT_IDS, Array(NumTree, x.reachableEndpoints));
    var m := Member(m, REACHABLE_TIMESYNC_SOURCES, Array(StrTree, x.reachableTimesyncSources));
    var m := Member(m, PACKETS_SENT, Num(x.packetsSent));
    var m := Member(m, PACKETS_RECEIVED, Num(x.packetsReceived));
    var m := Member(m, BYTES_SENT, Num(x.bytesSent));
    var m := Member(m, BYTES_RECEIVED, Num(x.bytesReceived));
    Obj(m)
  }

  // ---- the printers ----

  method ClientStatsToJson(names: Names, x: ClientStats) returns (r: string)
    ensures r == Text(ClientStatsTree(names, x))
  {
    hide Text, Opened, Awaiting;
    ghost var out := [];
    r := OpenObject([], "{");
    ghost var ms := NoMembers;
    r, ms := StrField(r, "\"" + SENDER_ID + "\":", SENDER_ID, x.senderId, out, ms);
    r, ms := BoolField(r, ",\"" + CONNECTED + "\":", CONNECTED, x.connected, out, ms);
    r, ms := NumbersField(r, ",\"" + SIDE_IDS + "\":", SIDE_IDS, x.sideIds, out, ms);
    r, ms := StringsField(r, ",\"" + SIDE_NAMES + "\":", SIDE_NAMES, x.sideNames, out, ms);
    r, ms := OptionField(r, ",\"" + LAST_SEEN_MS + "\":", LAST_SEEN_MS, x.lastSeenMs, out, ms);
    r, ms := OptionField(r, ",\"" + AGE_MS + "\":", AGE_MS, x.ageMs, out, ms);
    r, ms := NamesField(
      r, ",\"" + REACHABLE_ENDPOINTS + "\":", REACHABLE_ENDPOINTS, names, x.reachableEndpoints, out, ms);
    r, ms := NumbersField(
      r, ",\"" + REACHABLE_ENDPOINT_IDS + "\":", REACHABLE_ENDPOINT_IDS, x.reachableEndpoints, out, ms);
    r, ms := StringsField(
      r, ",\"" + REACHABLE_TIMESYNC_SOURCES + "\":", REACHABLE_TIMESYNC_SOURCES, x.reachableTimesyncSources, out,
      ms);
    r, ms := NumField(r, ",\"" + PACKETS_SENT + "\":", PACKETS_SENT, x.packetsSent, out, ms);
    r, ms := NumField(r, ",\"" + PACKETS_RECEIVED + "\":", PACKETS_RECEIVED, x.packetsReceived, out, ms);
    r, ms := NumField(r, ",\"" + BYTES_SENT + "\":", BYTES_SENT, x.bytesSent, out, ms);
    r, ms := NumField(r, ",\"" + BYTES_RECEIVED + "\":", BYTES_RECEIVED, x.bytesReceived, out, ms);
    r := CloseObject(r, "}", out, ms);
  }

  // ---- the trees determine the snapshot ----

  lemma ClientStatsDetermined(names: Names, a: ClientStats, b: ClientStats)
    requires ClientStatsTree(names, a) == ClientStatsTree(names, b)
    ensures a == b
  {
    hide Injective, Listed;
    LeavesInjective();
    ListedInjective(NumTree, a.sideIds, b.sideIds);
    ListedInjective(StrTree, a.sideNames, b.sideNames);
    ListedInjective(NumTree, a.reachableEndpoints, b.reachableEndpoints);
    ListedInjective(StrTree, a.reachableTimesyncSources, b.reachableTimesyncSources);
  }

  /** Two different snapshots never export the same document. */
  lemma ClientStatsExportDetermines(names: Names, a: ClientStats, b: ClientStats)
    requires Text(ClientStatsTree(names, a)) == Text(ClientStatsTree(names, b))
    ensures a == b
  {
    hide Text, ClientStatsTree;
    JsonRoundTrip.TextDeterminesTree(ClientStatsTree(names, a), ClientStatsTree(names, b));
    ClientStatsDetermined(names, a, b);
  }
}
