/** The runtime statistics export (`runtime_stats_snapshot_to_json` in src/c_api.rs). */
module RuntimeStatsJson {
  import opened Prelude
  import opened Json
  import opened JsonPrinting
  import opened SnapshotKeys
  import JsonRoundTrip

  datatype TypeStats = TypeStats(dataType: nat, txPackets: nat, txBytes: nat, rxPackets: nat, rxBytes: nat,
    relayedTxPackets: nat, relayedTxBytes: nat, relayedRxPackets: nat, relayedRxBytes: nat, txRetries: nat,
    handlerFailures: nat)

  datatype Adaptive = Adaptive(autoBalancingEnabled: bool, estimatedCapacityBps: nat, peakCapacityBps: nat,
    currentUsageBps: nat, peakUsageBps: nat, availableHeadroomBps: nat, effectiveWeight: nat, lastObservedMs: nat,
    sampleCount: nat)

  datatype Side = Side(sideId: nat, sideName: string, reliableEnabled: bool, linkLocalEnabled: bool,
    headerTemplateEnabled: bool, maxFrameBytes: nat, compactHeaderTargetBytes: nat, sideTransportProfile: string,
    ingressEnabled: bool, egressEnabled: bool, txPackets: nat, txBytes: nat, rxPackets: nat, rxBytes: nat,
    relayedTxPackets: nat, relayedTxBytes: nat, relayedRxPackets: nat, relayedRxBytes: nat,
    localDeliveryPackets: nat, txRetries: nat, txHandlerFailures: nat, localHandlerFailures: nat,
    totalHandlerRetries: nat, sideTransportFullFrames: nat, sideTransportCompactFrames: nat,
    sideTransportCompactDeltaFrames: nat, sideTransportCompactOmittedTimestampFrames: nat,
    sideTransportChunkFrames: nat, sideTransportChunkReclaims: nat, sideTransportRawBytes: nat,
    sideTransportWireBytes: nat, sideTransportBytesSaved: nat, sideTransportMinCompactOverheadBytes: Option<nat>,
    sideTransportMaxCompactOverheadBytes: Option<nat>, sideTransportCompactTargetMisses: nat,
    sideTransportTemplateEvictions: nat, sideTransportTxTemplateCount: nat, sideTransportRxTemplateCount: nat,
    maxSideTransportTemplates: nat, adaptive: Adaptive, dataTypes: seq<TypeStats>)

  datatype RouteMode = RouteMode(srcSideId: Option<nat>, selectionMode: Option<SelectionMode>, cursor: nat)

  datatype RouteOverride = RouteOverride(srcSideId: Option<nat>, dstSideId: nat, enabled: bool)

  datatype TypedOverride = TypedOverride(srcSideId: Option<nat>, dataType: nat, dstSideId: nat, enabled: bool)

  datatype RouteWeight = RouteWeight(srcSideId: Option<nat>, dstSideId: nat, weight: nat)

  datatype RoutePriority = RoutePriority(srcSideId: Option<nat>, dstSideId: nat, priority: nat)

  datatype Queues = Queues(rxLen: nat, rxBytes: nat, txLen: nat, txBytes: nat, replayLen: nat, replayBytes: nat,
    recentRxLen: nat, recentRxBytes: nat, reliableRxBufferedLen: nat, reliableRxBufferedBytes: nat,
    sharedQueueBytesUsed: nat)

  datatype Reliable = Reliable(reliableReturnRouteCount: nat, endToEndPendingCount: nat,
    endToEndPendingDestinationCount: nat, endToEndAckedCacheCount: nat)

  datatype Discovery = Discovery(routeCount: nat, announcerCount: nat, currentAnnounceIntervalMs: Option<nat>,
    nextAnnounceMs: Option<nat>)

  datatype RuntimeStats = RuntimeStats(sides: seq<Side>, routeModes: seq<RouteMode>,
    routeOverrides: seq<RouteOverride>, typedRouteOverrides: seq<TypedOverride>, routeWeights: seq<RouteWeight>,
    routePriorities: seq<RoutePriority>, queues: Queues, reliable: Reliable, discovery: Discovery,
    totalHandlerFailures: nat, totalHandlerRetries: nat)

  datatype SelectionMode = Fanout | Weighted | Failover

  function ModeName(mode: SelectionMode): string {
    match mode
    case Fanout => "Fanout"
    case Weighted => "Weighted"
    case Failover => "Failover"
  }

  function ModeTree(mode: Option<SelectionMode>): Tree { if mode.Some? then Str(ModeName(mode.value)) else Null }

  method ModeField(
      out: string, piece: string, key: Key, mode: Option<SelectionMode>, ghost base: string, ghost ms: Members)
    returns (r: string, ghost now: Members)
    requires out == Opened(base, ms) && piece == Lead(ms) + key + "\":"
    ensures now == Member(ms, key, ModeTree(mode))
    ensures r == Opened(base, Member(ms, key, ModeTree(mode)))
  {
    hide Opened, Awaiting, Quoted, ModeName;
    r := PushKey(out, piece, key, base, ms);
    Filled(base, ms, key, ModeTree(mode));
    match mode {
      case Some(m) => r := PushEscaped(r, ModeName(m));
      case None => r := r + "null";
    }
    now := Member(ms, key, ModeTree(mode));
  }

  // ---- the trees ----

  function TypeStatsTree(x: TypeStats): Tree {
    var m := Member(NoMembers, DATA_TYPE, Num(x.dataType));
    var m := Member(m, TX_PACKETS, Num(x.txPackets));
    var m := Member(m, TX_BYTES, Num(x.txBytes));
    var m := Member(m, RX_PACKETS, Num(x.rxPackets));
    var m := Member(m, RX_BYTES, Num(x.rxBytes));
    var m := Member(m, RELAYED_TX_PACKETS, Num(x.relayedTxPackets));
    var m := Member(m, RELAYED_TX_BYTES, Num(x.relayedTxBytes));
    var m := Member(m, RELAYED_RX_PACKETS, Num(x.relayedRxPackets));
    var m := Member(m, RELAYED_RX_BYTES, Num(x.relayedRxBytes));
    var m := Member(m, TX_RETRIES, Num(x.txRetries));
    var m := Member(m, HANDLER_FAILURES, Num(x.handlerFailures));
    Obj(m)
  }

  function AdaptiveMembers(x: Adaptive): Members {
    var m := Member(NoMembers, AUTO_BALANCING_ENABLED, Bool(x.autoBalancingEnabled));
    var m := Member(m, ESTIMATED_CAPACITY_BPS, Num(x.estimatedCapacityBps));
    var m := Member(m, PEAK_CAPACITY_BPS, Num(x.peakCapacityBps));
    var m := Member(m, CURRENT_USAGE_BPS, Num(x.currentUsageBps));
    var m := Member(m, PEAK_USAGE_BPS, Num(x.peakUsageBps));
    var m := Member(m, AVAILABLE_HEADROOM_BPS, Num(x.availableHeadroomBps));
    var m := Member(m, EFFECTIVE_WEIGHT, Num(x.effectiveWeight));
    var m := Member(m, LAST_OBSERVED_MS, Num(x.lastObservedMs));
    var m := Member(m, SAMPLE_COUNT, Num(x.sampleCount));
    m
  }

  function SideSettings(x: Side): (members: Members)
    ensures members.Member?
  {
    var m := Member(NoMembers, SIDE_ID, Num(x.sideId));
    var m := Member(m, SIDE_NAME, Str(x.sideName));
    var m := Member(m, RELIABLE_ENABLED, Bool(x.reliableEnabled));
    var m := Member(m, LINK_LOCAL_ENABLED, Bool(x.linkLocalEnabled));
    var m := Member(m, HEADER_TEMPLATE_ENABLED, Bool(x.headerTemplateEnabled));
    var m := Member(m, MAX_FRAME_BYTES, Num(x.maxFrameBytes));
    var m := Member(m, COMPACT_HEADER_TARGET_BYTES, Num(x.compactHeaderTargetBytes));
    var m := Member(m, MAX_SIDE_TRANSPORT_TEMPLATES, Num(x.maxSideTransportTemplates));
    var m := Member(m, SIDE_TRANSPORT_PROFILE, Str(x.sideTransportProfile));
    var m := Member(m, INGRESS_ENABLED, Bool(x.ingressEnabled));
    var m := Member(m, EGRESS_ENABLED, Bool(x.egressEnabled));
    m
  }

  function SideTraffic(ms: Members, x: Side): (members: Members)
    ensures members.Member?
  {
    var m := Member(ms, TX_PACKETS, Num(x.txPackets));
    var m := Member(m, TX_BYTES, Num(x.txBytes));
    var m := Member(m, RX_PACKETS, Num(x.rxPackets));
    var m := Member(m, RX_BYTES, Num(x.rxBytes));
    var m := Member(m, RELAYED_TX_PACKETS, Num(x.relayedTxPackets));
    var m := Member(m, RELAYED_TX_BYTES, Num(x.relayedTxBytes));
    var m := Member(m, RELAYED_RX_PACKETS, Num(x.relayedRxPackets));
    var m := Member(m, RELAYED_RX_BYTES, Num(x.relayedRxBytes));
    var m := Member(m, LOCAL_DELIVERY_PACKETS, Num(x.localDeliveryPackets));
    var m := Member(m, TX_RETRIES, Num(x.txRetries));
    var m := Member(m, TX_HANDLER_FAILURES, Num(x.txHandlerFailures));
    var m := Member(m, LOCAL_HANDLER_FAILURES, Num(x.localHandlerFailures));
    var m := Member(m, TOTAL_HANDLER_RETRIES, Num(x.totalHandlerRetries));
    m
  }

  function SideTransport(ms: Members, x: Side): (members: Members)
    ensures members.Member?
  {
    var m := Member(ms, SIDE_TRANSPORT_FULL_FRAMES, Num(x.sideTransportFullFrames));
    var m := Member(m, SIDE_TRANSPORT_COMPACT_FRAMES, Num(x.sideTransportCompactFrames));
    var m := Member(m, SIDE_TRANSPORT_COMPACT_DELTA_FRAMES, Num(x.sideTransportCompactDeltaFrames));
    var m := Member(
      m, SIDE_TRANSPORT_COMPACT_OMITTED_TIMESTAMP_FRAMES, Num(x.sideTransportCompactOmittedTimestampFrames));
    var m := Member(m, SIDE_TRANSPORT_CHUNK_FRAMES, Num(x.sideTransportChunkFrames));
    var m := Member(m, SIDE_TRANSPORT_CHUNK_RECLAIMS, Num(x.sideTransportChunkReclaims));
    var m := Member(m, SIDE_TRANSPORT_RAW_BYTES, Num(x.sideTransportRawBytes));
    var m := Member(m, SIDE_TRANSPORT_WIRE_BYTES, Num(x.sideTransportWireBytes));
    var m := Member(m, SIDE_TRANSPORT_BYTES_SAVED, Num(x.sideTransportBytesSaved));
    var m := Member(m, SIDE_TRANSPORT_COMPACT_TARGET_MISSES, Num(x.sideTransportCompactTargetMisses));
    var m := Member(m, SIDE_TRANSPORT_TEMPLATE_EVICTIONS, Num(x.sideTransportTemplateEvictions));
    var m := Member(m, SIDE_TRANSPORT_TX_TEMPLATE_COUNT, Num(x.sideTransportTxTemplateCount));
    var m := Member(m, SIDE_TRANSPORT_RX_TEMPLATE_COUNT, Num(x.sideTransportRxTemplateCount));
    var m := Member(m, SIDE_TRANSPORT_MIN_COMPACT_OVERHEAD_BYTES, OptionTree(x.sideTransportMinCompactOverheadBytes));
    var m := Member(m, SIDE_TRANSPORT_MAX_COMPACT_OVERHEAD_BYTES, OptionTree(x.sideTransportMaxCompactOverheadBytes));
    m
  }

  function SideTree(x: Side): Tree {
    var m := SideSettings(x);
    var m := SideTraffic(m, x);
    var m := SideTransport(m, x);
    var m := Member(m, ADAPTIVE, Obj(AdaptiveMembers(x.adaptive)));
    var m := Member(m, DATA_TYPES, Array(TypeStatsTree, x.dataTypes));
    Obj(m)
  }

  function RouteModeTree(x: RouteMode): Tree {
    var m := Member(NoMembers, SRC_SIDE_ID, OptionTree(x.srcSideId));
    var m := Member(m, SELECTION_MODE, ModeTree(x.selectionMode));
    var m := Member(m, CURSOR, Num(x.cursor));
    Obj(m)
  }

  function RouteOverrideTree(x: RouteOverride): Tree {
    var m := Member(NoMembers, SRC_SIDE_ID, OptionTree(x.srcSideId));
    var m := Member(m, DST_SIDE_ID, Num(x.dstSideId));
    var m := Member(m, ENABLED, Bool(x.enabled));
    Obj(m)
  }

  function TypedOverrideTree(x: TypedOverride): Tree {
    var m := Member(NoMembers, SRC_SIDE_ID, OptionTree(x.srcSideId));
    var m := Member(m, DATA_TYPE, Num(x.dataType));
    var m := Member(m, DST_SIDE_ID, Num(x.dstSideId));
    var m := Member(m, ENABLED, Bool(x.enabled));
    Obj(m)
  }

  function RouteWeightTree(x: RouteWeight): Tree {
    var m := Member(NoMembers, SRC_SIDE_ID, OptionTree(x.srcSideId));
    var m := Member(m, DST_SIDE_ID, Num(x.dstSideId));
    var m := Member(m, WEIGHT, Num(x.weight));
    Obj(m)
  }

  function RoutePriorityTree(x: RoutePriority): Tree {
    var m := Member(NoMembers, SRC_SIDE_ID, OptionTree(x.srcSideId));
    var m := Member(m, DST_SIDE_ID, Num(x.dstSideId));
    var m := Member(m, PRIORITY, Num(x.priority));
    Obj(m)
  }

  function QueuesMembers(x: Queues): Members {
    var m := Member(NoMembers, RX_LEN, Num(x.rxLen));
    var m := Member(m, RX_BYTES, Num(x.rxBytes));
    var m := Member(m, TX_LEN, Num(x.txLen));
    var m := Member(m, TX_BYTES, Num(x.txBytes));
    var m := Member(m, REPLAY_LEN, Num(x.replayLen));
    var m := Member(m, REPLAY_BYTES, Num(x.replayBytes));
    var m := Member(m, RECENT_RX_LEN, Num(x.recentRxLen));
    var m := Member(m, RECENT_RX_BYTES, Num(x.recentRxBytes));
    var m := Member(m, RELIABLE_RX_BUFFERED_LEN, Num(x.reliableRxBufferedLen));
    var m := Member(m, RELIABLE_RX_BUFFERED_BYTES, Num(x.reliableRxBufferedBytes));
    var m := Member(m, SHARED_QUEUE_BYTES_USED, Num(x.sharedQueueBytesUsed));
    m
  }

  function ReliableMembers(x: Reliable): Members {
    var m := Member(NoMembers, RELIABLE_RETURN_ROUTE_COUNT, Num(x.reliableReturnRouteCount));
    var m := Member(m, END_TO_END_PENDING_COUNT, Num(x.endToEndPendingCount));
    var m := Member(m, END_TO_END_PENDING_DESTINATION_COUNT, Num(x.endToEndPendingDestinationCount));
    var m := Member(m, END_TO_END_ACKED_CACHE_COUNT, Num(x.endToEndAckedCacheCount));
    m
  }

  function DiscoveryMembers(x: Discovery): Members {
    var m := Member(NoMembers, ROUTE_COUNT, Num(x.routeCount));
    var m := Member(m, ANNOUNCER_COUNT, Num(x.announcerCount));
    var m := Member(m, CURRENT_ANNOUNCE_INTERVAL_MS, OptionTree(x.currentAnnounceIntervalMs));
    var m := Member(m, NEXT_ANNOUNCE_MS, OptionTree(x.nextAnnounceMs));
    m
  }

  function RuntimeStatsRouting(ms: Members, x: RuntimeStats): (members: Members)
    ensures members.Member?
  {
    var m := Member(ms, ROUTE_MODES, Array(RouteModeTree, x.routeModes));
    var m := Member(m, ROUTE_OVERRIDES, Array(RouteOverrideTree, x.routeOverrides));
    var m := Member(m, TYPED_ROUTE_OVERRIDES, Array(TypedOverrideTree, x.typedRouteOverrides));
    var m := Member(m, ROUTE_WEIGHTS, Array(RouteWeightTree, x.routeWeights));
    var m := Member(m, ROUTE_PRIORITIES, Array(RoutePriorityTree, x.routePriorities));
    m
  }

  function RuntimeStatsTree(x: RuntimeStats): Tree {
    var m := Member(NoMembers, SIDES, Array(SideTree, x.sides));
    var m := RuntimeStatsRouting(m, x);
    var m := Member(m, QUEUES, Obj(QueuesMembers(x.queues)));
    var m := Member(m, RELIABLE, Obj(ReliableMembers(x.reliable)));
    var m := Member(m, DISCOVERY, Obj(DiscoveryMembers(x.discovery)));
    var m := Member(m, TOTAL_HANDLER_FAILURES, Num(x.totalHandlerFailures));
    var m := Member(m, TOTAL_HANDLER_RETRIES, Num(x.totalHandlerRetries));
    Obj(m)
  }

  // ---- the printers ----

  method PushTypeStats(out: string, x: TypeStats) returns (r: string)
    ensures r == out + Text(TypeStatsTree(x))
  {
    hide Text, Opened, Awaiting;
    r := OpenObject(out, "{");
    ghost var ms := NoMembers;
    r, ms := NumField(r, "\"" + DATA_TYPE + "\":", DATA_TYPE, x.dataType, out, ms);
    r, ms := NumField(r, ",\"" + TX_PACKETS + "\":", TX_PACKETS, x.txPackets, out, ms);
    r, ms := NumField(r, ",\"" + TX_BYTES + "\":", TX_BYTES, x.txBytes, out, ms);
    r, ms := NumField(r, ",\"" + RX_PACKETS + "\":", RX_PACKETS, x.rxPackets, out, ms);
    r, ms := NumField(r, ",\"" + RX_BYTES + "\":", RX_BYTES, x.rxBytes, out, ms);
    r, ms := NumField(r, ",\"" + RELAYED_TX_PACKETS + "\":", RELAYED_TX_PACKETS, x.relayedTxPackets, out, ms);
    r, ms := NumField(r, ",\"" + RELAYED_TX_BYTES + "\":", RELAYED_TX_BYTES, x.relayedTxBytes, out, ms);
    r, ms := NumField(r, ",\"" + RELAYED_RX_PACKETS + "\":", RELAYED_RX_PACKETS, x.relayedRxPackets, out, ms);
    r, ms := NumField(r, ",\"" + RELAYED_RX_BYTES + "\":", RELAYED_RX_BYTES, x.relayedRxBytes, out, ms);
    r, ms := NumField(r, ",\"" + TX_RETRIES + "\":", TX_RETRIES, x.txRetries, out, ms);
    r, ms := NumField(r, ",\"" + HANDLER_FAILURES + "\":", HANDLER_FAILURES, x.handlerFailures, out, ms);
    r := CloseObject(r, "}", out, ms);
  }

  method PushTypeStatsList(out: string, xs: seq<TypeStats>, ghost base: string) returns (r: string)
    requires out == Listing(base, TypeStatsTree, xs, 0)
    ensures r == Listing(base, TypeStatsTree, xs, |xs|)
  {
    hide Listing, Text, TypeStatsTree;
    r := out;
    for i := 0 to |xs|
      invariant r == Listing(base, TypeStatsTree, xs, i)
    {
      ListingStep(base, TypeStatsTree, xs, i);
      if i != 0 {
        r := r + ",";
      }
      r := PushTypeStats(r, xs[i]);
    }
  }

  method PushAdaptiveFields(out: string, x: Adaptive, ghost base: string) returns (r: string)
    requires out == Opened(base, NoMembers)
    ensures r == Opened(base, AdaptiveMembers(x))
  {
    hide Text, Opened, Awaiting;
    r := out;
    ghost var ms := NoMembers;
    r, ms := BoolField(
      r, "\"" + AUTO_BALANCING_ENABLED + "\":", AUTO_BALANCING_ENABLED, x.autoBalancingEnabled, base, ms);
    r, ms := NumField(
      r, ",\"" + ESTIMATED_CAPACITY_BPS + "\":", ESTIMATED_CAPACITY_BPS, x.estimatedCapacityBps, base, ms);
    r, ms := NumField(r, ",\"" + PEAK_CAPACITY_BPS + "\":", PEAK_CAPACITY_BPS, x.peakCapacityBps, base, ms);
    r, ms := NumField(r, ",\"" + CURRENT_USAGE_BPS + "\":", CURRENT_USAGE_BPS, x.currentUsageBps, base, ms);
    r, ms := NumField(r, ",\"" + PEAK_USAGE_BPS + "\":", PEAK_USAGE_BPS, x.peakUsageBps, base, ms);
    r, ms := NumField(
      r, ",\"" + AVAILABLE_HEADROOM_BPS + "\":", AVAILABLE_HEADROOM_BPS, x.availableHeadroomBps, base, ms);
    r, ms := NumField(r, ",\"" + EFFECTIVE_WEIGHT + "\":", EFFECTIVE_WEIGHT, x.effectiveWeight, base, ms);
    r, ms := NumField(r, ",\"" + LAST_OBSERVED_MS + "\":", LAST_OBSERVED_MS, x.lastObservedMs, base, ms);
    r, ms := NumField(r, ",\"" + SAMPLE_COUNT + "\":", SAMPLE_COUNT, x.sampleCount, base, ms);
  }

  method PushSideSettings(out: string, x: Side, ghost base: string) returns (r: string)
    requires out == Opened(base, NoMembers)
    ensures r == Opened(base, SideSettings(x))
  {
    hide Text, Opened, Awaiting;
    r := out;
    ghost var ms := NoMembers;
    r, ms := NumField(r, "\"" + SIDE_ID + "\":", SIDE_ID, x.sideId, base, ms);
    r, ms := StrField(r, ",\"" + SIDE_NAME + "\":", SIDE_NAME, x.sideName, base, ms);
    r, ms := BoolField(r, ",\"" + RELIABLE_ENABLED + "\":", RELIABLE_ENABLED, x.reliableEnabled, base, ms);
    r, ms := BoolField(r, ",\"" + LINK_LOCAL_ENABLED + "\":", LINK_LOCAL_ENABLED, x.linkLocalEnabled, base, ms);
    r, ms := BoolField(
      r, ",\"" + HEADER_TEMPLATE_ENABLED + "\":", HEADER_TEMPLATE_ENABLED, x.headerTemplateEnabled, base, ms);
    r, ms := NumField(r, ",\"" + MAX_FRAME_BYTES + "\":", MAX_FRAME_BYTES, x.maxFrameBytes, base, ms);
    r, ms := NumField(
      r, ",\"" + COMPACT_HEADER_TARGET_BYTES + "\":", COMPACT_HEADER_TARGET_BYTES, x.compactHeaderTargetBytes, base,
      ms);
    r, ms := NumField(
      r, ",\"" + MAX_SIDE_TRANSPORT_TEMPLATES + "\":", MAX_SIDE_TRANSPORT_TEMPLATES, x.maxSideTransportTemplates,
      base, ms);
    r, ms := StrField(
      r, ",\"" + SIDE_TRANSPORT_PROFILE + "\":", SIDE_TRANSPORT_PROFILE, x.sideTransportProfile, base, ms);
    r, ms := BoolField(r, ",\"" + INGRESS_ENABLED + "\":", INGRESS_ENABLED, x.ingressEnabled, base, ms);
    r, ms := BoolField(r, ",\"" + EGRESS_ENABLED + "\":", EGRESS_ENABLED, x.egressEnabled, base, ms);
  }

  method PushSideTraffic(out: string, x: Side, ghost base: string, ghost before: Members) returns (r: string)
    requires out == Opened(base, before) && before.Member?
    ensures r == Opened(base, SideTraffic(before, x))
  {
    hide Text, Opened, Awaiting;
    r := out;
    ghost var ms := before;
    r, ms := NumField(r, ",\"" + TX_PACKETS + "\":", TX_PACKETS, x.txPackets, base, ms);
    r, ms := NumField(r, ",\"" + TX_BYTES + "\":", TX_BYTES, x.txBytes, base, ms);
    r, ms := NumField(r, ",\"" + RX_PACKETS + "\":", RX_PACKETS, x.rxPackets, base, ms);
    r, ms := NumField(r, ",\"" + RX_BYTES + "\":", RX_BYTES, x.rxBytes, base, ms);
    r, ms := NumField(r, ",\"" + RELAYED_TX_PACKETS + "\":", RELAYED_TX_PACKETS, x.relayedTxPackets, base, ms);
    r, ms := NumField(r, ",\"" + RELAYED_TX_BYTES + "\":", RELAYED_TX_BYTES, x.relayedTxBytes, base, ms);
    r, ms := NumField(r, ",\"" + RELAYED_RX_PACKETS + "\":", RELAYED_RX_PACKETS, x.relayedRxPackets, base, ms);
    r, ms := NumField(r, ",\"" + RELAYED_RX_BYTES + "\":", RELAYED_RX_BYTES, x.relayedRxBytes, base, ms);
    r, ms := NumField(
      r, ",\"" + LOCAL_DELIVERY_PACKETS + "\":", LOCAL_DELIVERY_PACKETS, x.localDeliveryPackets, base, ms);
    r, ms := NumField(r, ",\"" + TX_RETRIES + "\":", TX_RETRIES, x.txRetries, base, ms);
    r, ms := NumField(r, ",\"" + TX_HANDLER_FAILURES + "\":", TX_HANDLER_FAILURES, x.txHandlerFailures, base, ms);
    r, ms := NumField(
      r, ",\"" + LOCAL_HANDLER_FAILURES + "\":", LOCAL_HANDLER_FAILURES, x.localHandlerFailures, base, ms);
    r, ms := NumField(
      r, ",\"" + TOTAL_HANDLER_RETRIES + "\":", TOTAL_HANDLER_RETRIES, x.totalHandlerRetries, base, ms);
  }

  method PushSideTransport(out: string, x: Side, ghost base: string, ghost before: Members) returns (r: string)
    requires out == Opened(base, before) && before.Member?
    ensures r == Opened(base, SideTransport(before, x))
  {
    hide Text, Opened, Awaiting;
    r := out;
    ghost var ms := before;
    r, ms := NumField(
      r, ",\"" + SIDE_TRANSPORT_FULL_FRAMES + "\":", SIDE_TRANSPORT_FULL_FRAMES, x.sideTransportFullFrames, base,
      ms);
    r, ms := NumField(
      r, ",\"" + SIDE_TRANSPORT_COMPACT_FRAMES + "\":", SIDE_TRANSPORT_COMPACT_FRAMES, x.sideTransportCompactFrames,
      base, ms);
    r, ms := NumField(
      r, ",\"" + SIDE_TRANSPORT_COMPACT_DELTA_FRAMES + "\":", SIDE_TRANSPORT_COMPACT_DELTA_FRAMES,
      x.sideTransportCompactDeltaFrames, base, ms);
    r, ms := NumField(
      r, ",\"" + SIDE_TRANSPORT_COMPACT_OMITTED_TIMESTAMP_FRAMES + "\":",
      SIDE_TRANSPORT_COMPACT_OMITTED_TIMESTAMP_FRAMES, x.sideTransportCompactOmittedTimestampFrames, base, ms);
    r, ms := NumField(
      r, ",\"" + SIDE_TRANSPORT_CHUNK_FRAMES + "\":", SIDE_TRANSPORT_CHUNK_FRAMES, x.sideTransportChunkFrames, base,
      ms);
    r, ms := NumField(
      r, ",\"" + SIDE_TRANSPORT_CHUNK_RECLAIMS + "\":", SIDE_TRANSPORT_CHUNK_RECLAIMS, x.sideTransportChunkReclaims,
      base, ms);
    r, ms := NumField(
      r, ",\"" + SIDE_TRANSPORT_RAW_BYTES + "\":", SIDE_TRANSPORT_RAW_BYTES, x.sideTransportRawBytes, base, ms);
    r, ms := NumField(
      r, ",\"" + SIDE_TRANSPORT_WIRE_BYTES + "\":", SIDE_TRANSPORT_WIRE_BYTES, x.sideTransportWireBytes, base, ms);
    r, ms := NumField(
      r, ",\"" + SIDE_TRANSPORT_BYTES_SAVED + "\":", SIDE_TRANSPORT_BYTES_SAVED, x.sideTransportBytesSaved, base,
      ms);
    r, ms := NumField(
      r, ",\"" + SIDE_TRANSPORT_COMPACT_TARGET_MISSES + "\":", SIDE_TRANSPORT_COMPACT_TARGET_MISSES,
      x.sideTransportCompactTargetMisses, base, ms);
    r, ms := NumField(
      r, ",\"" + SIDE_TRANSPORT_TEMPLATE_EVICTIONS + "\":", SIDE_TRANSPORT_TEMPLATE_EVICTIONS,
      x.sideTransportTemplateEvictions, base, ms);
    r, ms := NumField(
      r, ",\"" + SIDE_TRANSPORT_TX_TEMPLATE_COUNT + "\":", SIDE_TRANSPORT_TX_TEMPLATE_COUNT,
      x.sideTransportTxTemplateCount, base, ms);
    r, ms := NumField(
      r, ",\"" + SIDE_TRANSPORT_RX_TEMPLATE_COUNT + "\":", SIDE_TRANSPORT_RX_TEMPLATE_COUNT,
      x.sideTransportRxTemplateCount, base, ms);
    r, ms := OptionField(
      r, ",\"" + SIDE_TRANSPORT_MIN_COMPACT_OVERHEAD_BYTES + "\":", SIDE_TRANSPORT_MIN_COMPACT_OVERHEAD_BYTES,
      x.sideTransportMinCompactOverheadBytes, base, ms);
    r, ms := OptionField(
      r, ",\"" + SIDE_TRANSPORT_MAX_COMPACT_OVERHEAD_BYTES + "\":", SIDE_TRANSPORT_MAX_COMPACT_OVERHEAD_BYTES,
      x.sideTransportMaxCompactOverheadBytes, base, ms);
  }

  method PushSide(out: string, x: Side) returns (r: string)
    ensures r == out + Text(SideTree(x))
  {
    hide Text, Opened, Awaiting, Listing, SideSettings, SideTraffic, SideTransport, AdaptiveMembers, TypeStatsTree;
    r := OpenObject(out, "{");
    ghost var ms := NoMembers;
    r := PushSideSettings(r, x, out);
    ms := SideSettings(x);
    r := PushSideTraffic(r, x, out, ms);
    ms := SideTraffic(ms, x);
    r := PushSideTransport(r, x, out, ms);
    ms := SideTransport(ms, x);
    r := PushKeyObject(r, ",\"" + ADAPTIVE + "\":{", ADAPTIVE, out, ms);
    r := PushAdaptiveFields(r, x.adaptive, Awaiting(out, ms, ADAPTIVE));
    r, ms := EndObject(r, "}", ADAPTIVE, AdaptiveMembers(x.adaptive), out, ms);
    r := PushKeyArray(r, ",\"" + DATA_TYPES + "\":[", DATA_TYPES, TypeStatsTree, x.dataTypes, out, ms);
    r := PushTypeStatsList(r, x.dataTypes, Awaiting(out, ms, DATA_TYPES));
    r, ms := EndArray(r, "]", DATA_TYPES, TypeStatsTree, x.dataTypes, out, ms);
    r := CloseObject(r, "}", out, ms);
  }

  method PushSides(out: string, xs: seq<Side>, ghost base: string) returns (r: string)
    requires out == Listing(base, SideTree, xs, 0)
    ensures r == Listing(base, SideTree, xs, |xs|)
  {
    hide Listing, Text, SideTree;
    r := out;
    for i := 0 to |xs|
      invariant r == Listing(base, SideTree, xs, i)
    {
      ListingStep(base, SideTree, xs, i);
      if i != 0 {
        r := r + ",";
      }
      r := PushSide(r, xs[i]);
    }
  }

  method PushRouteMode(out: string, x: RouteMode) returns (r: string)
    ensures r == out + Text(RouteModeTree(x))
  {
    hide Text, Opened, Awaiting;
    r := OpenObject(out, "{");
    ghost var ms := NoMembers;
    r, ms := OptionField(r, "\"" + SRC_SIDE_ID + "\":", SRC_SIDE_ID, x.srcSideId, out, ms);
    r, ms := ModeField(r, ",\"" + SELECTION_MODE + "\":", SELECTION_MODE, x.selectionMode, out, ms);
    r, ms := NumField(r, ",\"" + CURSOR + "\":", CURSOR, x.cursor, out, ms);
    r := CloseObject(r, "}", out, ms);
  }

  method PushRouteModes(out: string, xs: seq<RouteMode>, ghost base: string) returns (r: string)
    requires out == Listing(base, RouteModeTree, xs, 0)
    ensures r == Listing(base, RouteModeTree, xs, |xs|)
  {
    hide Listing, Text, RouteModeTree;
    r := out;
    for i := 0 to |xs|
      invariant r == Listing(base, RouteModeTree, xs, i)
    {
      ListingStep(base, RouteModeTree, xs, i);
      if i != 0 {
        r := r + ",";
      }
      r := PushRouteMode(r, xs[i]);
    }
  }

  method PushRouteOverride(out: string, x: RouteOverride) returns (r: string)
    ensures r == out + Text(RouteOverrideTree(x))
  {
    hide Text, Opened, Awaiting;
    r := OpenObject(out, "{");
    ghost var ms := NoMembers;
    r, ms := OptionField(r, "\"" + SRC_SIDE_ID + "\":", SRC_SIDE_ID, x.srcSideId, out, ms);
    r, ms := NumField(r, ",\"" + DST_SIDE_ID + "\":", DST_SIDE_ID, x.dstSideId, out, ms);
    r, ms := BoolField(r, ",\"" + ENABLED + "\":", ENABLED, x.enabled, out, ms);
    r := CloseObject(r, "}", out, ms);
  }

  method PushRouteOverrides(out: string, xs: seq<RouteOverride>, ghost base: string) returns (r: string)
    requires out == Listing(base, RouteOverrideTree, xs, 0)
    ensures r == Listing(base, RouteOverrideTree, xs, |xs|)
  {
    hide Listing, Text, RouteOverrideTree;
    r := out;
    for i := 0 to |xs|
      invariant r == Listing(base, RouteOverrideTree, xs, i)
    {
      ListingStep(base, RouteOverrideTree, xs, i);
      if i != 0 {
        r := r + ",";
      }
      r := PushRouteOverride(r, xs[i]);
    }
  }

  method PushTypedOverride(out: string, x: TypedOverride) returns (r: string)
    ensures r == out + Text(TypedOverrideTree(x))
  {
    hide Text, Opened, Awaiting;
    r := OpenObject(out, "{");
    ghost var ms := NoMembers;
    r, ms := OptionField(r, "\"" + SRC_SIDE_ID + "\":", SRC_SIDE_ID, x.srcSideId, out, ms);
    r, ms := NumField(r, ",\"" + DATA_TYPE + "\":", DATA_TYPE, x.dataType, out, ms);
    r, ms := NumField(r, ",\"" + DST_SIDE_ID + "\":", DST_SIDE_ID, x.dstSideId, out, ms);
    r, ms := BoolField(r, ",\"" + ENABLED + "\":", ENABLED, x.enabled, out, ms);
    r := CloseObject(r, "}", out, ms);
  }

  method PushTypedOverrides(out: string, xs: seq<TypedOverride>, ghost base: string) returns (r: string)
    requires out == Listing(base, TypedOverrideTree, xs, 0)
    ensures r == Listing(base, TypedOverrideTree, xs, |xs|)
  {
    hide Listing, Text, TypedOverrideTree;
    r := out;
    for i := 0 to |xs|
      invariant r == Listing(base, TypedOverrideTree, xs, i)
    {
      ListingStep(base, TypedOverrideTree, xs, i);
      if i != 0 {
        r := r + ",";
      }
      r := PushTypedOverride(r, xs[i]);
    }
  }

  method PushRouteWeight(out: string, x: RouteWeight) returns (r: string)
    ensures r == out + Text(RouteWeightTree(x))
  {
    hide Text, Opened, Awaiting;
    r := OpenObject(out, "{");
    ghost var ms := NoMembers;
    r, ms := OptionField(r, "\"" + SRC_SIDE_ID + "\":", SRC_SIDE_ID, x.srcSideId, out, ms);
    r, ms := NumField(r, ",\"" + DST_SIDE_ID + "\":", DST_SIDE_ID, x.dstSideId, out, ms);
    r, ms := NumField(r, ",\"" + WEIGHT + "\":", WEIGHT, x.weight, out, ms);
    r := CloseObject(r, "}", out, ms);
  }

  method PushRouteWeights(out: string, xs: seq<RouteWeight>, ghost base: string) returns (r: string)
    requires out == Listing(base, RouteWeightTree, xs, 0)
    ensures r == Listing(base, RouteWeightTree, xs, |xs|)
  {
    hide Listing, Text, RouteWeightTree;
    r := out;
    for i := 0 to |xs|
      invariant r == Listing(base, RouteWeightTree, xs, i)
    {
      ListingStep(base, RouteWeightTree, xs, i);
      if i != 0 {
        r := r + ",";
      }
      r := PushRouteWeight(r, xs[i]);
    }
  }

  method PushRoutePriority(out: string, x: RoutePriority) returns (r: string)
    ensures r == out + Text(RoutePriorityTree(x))
  {
    hide Text, Opened, Awaiting;
    r := OpenObject(out, "{");
    ghost var ms := NoMembers;
    r, ms := OptionField(r, "\"" + SRC_SIDE_ID + "\":", SRC_SIDE_ID, x.srcSideId, out, ms);
    r, ms := NumField(r, ",\"" + DST_SIDE_ID + "\":", DST_SIDE_ID, x.dstSideId, out, ms);
    r, ms := NumField(r, ",\"" + PRIORITY + "\":", PRIORITY, x.priority, out, ms);
    r := CloseObject(r, "}", out, ms);
  }

  method PushRoutePriorities(out: string, xs: seq<RoutePriority>, ghost base: string) returns (r: string)
    requires out == Listing(base, RoutePriorityTree, xs, 0)
    ensures r == Listing(base, RoutePriorityTree, xs, |xs|)
  {
    hide Listing, Text, RoutePriorityTree;
    r := out;
    for i := 0 to |xs|
      invariant r == Listing(base, RoutePriorityTree, xs, i)
    {
      ListingStep(base, RoutePriorityTree, xs, i);
      if i != 0 {
        r := r + ",";
      }
      r := PushRoutePriority(r, xs[i]);
    }
  }

  method PushQueuesFields(out: string, x: Queues, ghost base: string) returns (r: string)
    requires out == Opened(base, NoMembers)
    ensures r == Opened(base, QueuesMembers(x))
  {
    hide Text, Opened, Awaiting;
    r := out;
    ghost var ms := NoMembers;
    r, ms := NumField(r, "\"" + RX_LEN + "\":", RX_LEN, x.rxLen, base, ms);
    r, ms := NumField(r, ",\"" + RX_BYTES + "\":", RX_BYTES, x.rxBytes, base, ms);
    r, ms := NumField(r, ",\"" + TX_LEN + "\":", TX_LEN, x.txLen, base, ms);
    r, ms := NumField(r, ",\"" + TX_BYTES + "\":", TX_BYTES, x.txBytes, base, ms);
    r, ms := NumField(r, ",\"" + REPLAY_LEN + "\":", REPLAY_LEN, x.replayLen, base, ms);
    r, ms := NumField(r, ",\"" + REPLAY_BYTES + "\":", REPLAY_BYTES, x.replayBytes, base, ms);
    r, ms := NumField(r, ",\"" + RECENT_RX_LEN + "\":", RECENT_RX_LEN, x.recentRxLen, base, ms);
    r, ms := NumField(r, ",\"" + RECENT_RX_BYTES + "\":", RECENT_RX_BYTES, x.recentRxBytes, base, ms);
    r, ms := NumField(
      r, ",\"" + RELIABLE_RX_BUFFERED_LEN + "\":", RELIABLE_RX_BUFFERED_LEN, x.reliableRxBufferedLen, base, ms);
    r, ms := NumField(
      r, ",\"" + RELIABLE_RX_BUFFERED_BYTES + "\":", RELIABLE_RX_BUFFERED_BYTES, x.reliableRxBufferedBytes, base,
      ms);
    r, ms := NumField(
      r, ",\"" + SHARED_QUEUE_BYTES_USED + "\":", SHARED_QUEUE_BYTES_USED, x.sharedQueueBytesUsed, base, ms);
  }

  method PushReliableFields(out: string, x: Reliable, ghost base: string) returns (r: string)
    requires out == Opened(base, NoMembers)
    ensures r == Opened(base, ReliableMembers(x))
  {
    hide Text, Opened, Awaiting;
    r := out;
    ghost var ms := NoMembers;
    r, ms := NumField(
      r, "\"" + RELIABLE_RETURN_ROUTE_COUNT + "\":", RELIABLE_RETURN_ROUTE_COUNT, x.reliableReturnRouteCount, base,
      ms);
    r, ms := NumField(
      r, ",\"" + END_TO_END_PENDING_COUNT + "\":", END_TO_END_PENDING_COUNT, x.endToEndPendingCount, base, ms);
    r, ms := NumField(
      r, ",\"" + END_TO_END_PENDING_DESTINATION_COUNT + "\":", END_TO_END_PENDING_DESTINATION_COUNT,
      x.endToEndPendingDestinationCount, base, ms);
    r, ms := NumField(
      r, ",\"" + END_TO_END_ACKED_CACHE_COUNT + "\":", END_TO_END_ACKED_CACHE_COUNT, x.endToEndAckedCacheCount,
      base, ms);
  }

  method PushDiscoveryFields(out: string, x: Discovery, ghost base: string) returns (r: string)
    requires out == Opened(base, NoMembers)
    ensures r == Opened(base, DiscoveryMembers(x))
  {
    hide Text, Opened, Awaiting;
    r := out;
    ghost var ms := NoMembers;
    r, ms := NumField(r, "\"" + ROUTE_COUNT + "\":", ROUTE_COUNT, x.routeCount, base, ms);
    r, ms := NumField(r, ",\"" + ANNOUNCER_COUNT + "\":", ANNOUNCER_COUNT, x.announcerCount, base, ms);
    r, ms := OptionField(
      r, ",\"" + CURRENT_ANNOUNCE_INTERVAL_MS + "\":", CURRENT_ANNOUNCE_INTERVAL_MS, x.currentAnnounceIntervalMs,
      base, ms);
    r, ms := OptionField(r, ",\"" + NEXT_ANNOUNCE_MS + "\":", NEXT_ANNOUNCE_MS, x.nextAnnounceMs, base, ms);
  }

  method PushRuntimeStatsRouting(out: string, x: RuntimeStats, ghost base: string, ghost before: Members)
    returns (r: string)
    requires out == Opened(base, before) && before.Member?
    ensures r == Opened(base, RuntimeStatsRouting(before, x))
  {
    hide Text, Opened, Awaiting, Listing;
    r := out;
    ghost var ms := before;
    r := PushKeyArray(r, ",\"" + ROUTE_MODES + "\":[", ROUTE_MODES, RouteModeTree, x.routeModes, base, ms);
    r := PushRouteModes(r, x.routeModes, Awaiting(base, ms, ROUTE_MODES));
    r, ms := EndArray(r, "]", ROUTE_MODES, RouteModeTree, x.routeModes, base, ms);
    r := PushKeyArray(
      r, ",\"" + ROUTE_OVERRIDES + "\":[", ROUTE_OVERRIDES, RouteOverrideTree, x.routeOverrides, base, ms);
    r := PushRouteOverrides(r, x.routeOverrides, Awaiting(base, ms, ROUTE_OVERRIDES));
    r, ms := EndArray(r, "]", ROUTE_OVERRIDES, RouteOverrideTree, x.routeOverrides, base, ms);
    r := PushKeyArray(
      r, ",\"" + TYPED_ROUTE_OVERRIDES + "\":[", TYPED_ROUTE_OVERRIDES, TypedOverrideTree, x.typedRouteOverrides,
      base, ms);
    r := PushTypedOverrides(r, x.typedRouteOverrides, Awaiting(base, ms, TYPED_ROUTE_OVERRIDES));
    r, ms := EndArray(r, "]", TYPED_ROUTE_OVERRIDES, TypedOverrideTree, x.typedRouteOverrides, base, ms);
    r := PushKeyArray(r, ",\"" + ROUTE_WEIGHTS + "\":[", ROUTE_WEIGHTS, RouteWeightTree, x.routeWeights, base, ms);
    r := PushRouteWeights(r, x.routeWeights, Awaiting(base, ms, ROUTE_WEIGHTS));
    r, ms := EndArray(r, "]", ROUTE_WEIGHTS, RouteWeightTree, x.routeWeights, base, ms);
    r := PushKeyArray(
      r, ",\"" + ROUTE_PRIORITIES + "\":[", ROUTE_PRIORITIES, RoutePriorityTree, x.routePriorities, base, ms);
    r := PushRoutePriorities(r, x.routePriorities, Awaiting(base, ms, ROUTE_PRIORITIES));
    r, ms := EndArray(r, "]", ROUTE_PRIORITIES, RoutePriorityTree, x.routePriorities, base, ms);
  }

  method RuntimeStatsToJson(x: RuntimeStats) returns (r: string)
    ensures r == Text(RuntimeStatsTree(x))
  {
    hide Text, Opened, Awaiting, Listing, RuntimeStatsRouting, QueuesMembers, ReliableMembers, DiscoveryMembers,
      SideTree;
    ghost var out := [];
    r := OpenObject([], "{");
    ghost var ms := NoMembers;
    r := PushKeyArray(r, "\"" + SIDES + "\":[", SIDES, SideTree, x.sides, out, ms);
    r := PushSides(r, x.sides, Awaiting(out, ms, SIDES));
    r, ms := EndArray(r, "]", SIDES, SideTree, x.sides, out, ms);
    r := PushRuntimeStatsRouting(r, x, out, ms);
    ms := RuntimeStatsRouting(ms, x);
    r := PushKeyObject(r, ",\"" + QUEUES + "\":{", QUEUES, out, ms);
    r := PushQueuesFields(r, x.queues, Awaiting(out, ms, QUEUES));
    r, ms := EndObject(r, "}", QUEUES, QueuesMembers(x.queues), out, ms);
    r := PushKeyObject(r, ",\"" + RELIABLE + "\":{", RELIABLE, out, ms);
    r := PushReliableFields(r, x.reliable, Awaiting(out, ms, RELIABLE));
    r, ms := EndObject(r, "}", RELIABLE, ReliableMembers(x.reliable), out, ms);
    r := PushKeyObject(r, ",\"" + DISCOVERY + "\":{", DISCOVERY, out, ms);
    r := PushDiscoveryFields(r, x.discovery, Awaiting(out, ms, DISCOVERY));
    r, ms := EndObject(r, "}", DISCOVERY, DiscoveryMembers(x.discovery), out, ms);
    r, ms := NumField(
      r, ",\"" + TOTAL_HANDLER_FAILURES + "\":", TOTAL_HANDLER_FAILURES, x.totalHandlerFailures, out, ms);
    r, ms := NumField(
      r, ",\"" + TOTAL_HANDLER_RETRIES + "\":", TOTAL_HANDLER_RETRIES, x.totalHandlerRetries, out, ms);
    r := CloseObject(r, "}", out, ms);
  }

  // ---- the trees determine the snapshot ----

  lemma TypeStatsListInjective()
    ensures Injective(TypeStatsTree)
  {
  }

  lemma SideDetermined(a: Side, b: Side)
    requires SideTree(a) == SideTree(b)
    ensures a == b
  {
    hide Injective, Listed, TypeStatsTree;
    TypeStatsListInjective();
    ListedInjective(TypeStatsTree, a.dataTypes, b.dataTypes);
  }

  lemma SidesInjective()
    ensures Injective(SideTree)
  {
    hide SideTree;
    forall a: Side, b: Side | SideTree(a) == SideTree(b)
      ensures a == b
    {
      SideDetermined(a, b);
    }
  }

  lemma RouteModesInjective()
    ensures Injective(RouteModeTree)
  {
  }

  lemma RouteOverridesInjective()
    ensures Injective(RouteOverrideTree)
  {
  }

  lemma TypedOverridesInjective()
    ensures Injective(TypedOverrideTree)
  {
  }

  lemma RouteWeightsInjective()
    ensures Injective(RouteWeightTree)
  {
  }

  lemma RoutePrioritiesInjective()
    ensures Injective(RoutePriorityTree)
  {
  }

  lemma RuntimeStatsDetermined(a: RuntimeStats, b: RuntimeStats)
    requires RuntimeStatsTree(a) == RuntimeStatsTree(b)
    ensures a == b
  {
    hide Injective, Listed, SideTree, RouteModeTree, RouteOverrideTree, TypedOverrideTree, RouteWeightTree,
      RoutePriorityTree;
    SidesInjective();
    ListedInjective(SideTree, a.sides, b.sides);
    RouteModesInjective();
    ListedInjective(RouteModeTree, a.routeModes, b.routeModes);
    RouteOverridesInjective();
    ListedInjective(RouteOverrideTree, a.routeOverrides, b.routeOverrides);
    TypedOverridesInjective();
    ListedInjective(TypedOverrideTree, a.typedRouteOverrides, b.typedRouteOverrides);
    RouteWeightsInjective();
    ListedInjective(RouteWeightTree, a.routeWeights, b.routeWeights);
    RoutePrioritiesInjective();
    ListedInjective(RoutePriorityTree, a.routePriorities, b.routePriorities);
  }

  /** Two different snapshots never export the same document. */
  lemma RuntimeStatsExportDetermines(a: RuntimeStats, b: RuntimeStats)
    requires Text(RuntimeStatsTree(a)) == Text(RuntimeStatsTree(b))
    ensures a == b
  {
    hide Text, RuntimeStatsTree;
    JsonRoundTrip.TextDeterminesTree(RuntimeStatsTree(a), RuntimeStatsTree(b));
    RuntimeStatsDetermined(a, b);
  }
}
