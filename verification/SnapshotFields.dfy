/** The lookup laws of the exported snapshots: what a client that parses the text
    finds under each member name. */
module SnapshotFields {
  import opened Prelude
  import opened ClientStatsJson
  import opened Json
  import opened JsonPrinting
  import opened Numerals
  import opened RuntimeStatsJson
  import opened TopologyJson
  import JsonRoundTrip

  // ---- leaves and lists ----

  lemma Parses(t: Tree)
    ensures Document(Text(t)) == Some(t)
  {
    hide Text, ParseTree;
    JsonRoundTrip.RoundTrip(t, "");
    assert Text(t) + "" == Text(t);
  }

  /** An absent value is null, a present one its number. */
  lemma OptionsRead(n: nat)
    ensures OptionTree(None) == Null && OptionTree(Some(n)) == Num(n)
  {
  }

  /** Selection modes are spelled by name. */
  lemma ModesRead()
    ensures ModeTree(None) == Null && ModeTree(Some(Fanout)) == Str("Fanout")
    ensures ModeTree(Some(Weighted)) == Str("Weighted") && ModeTree(Some(Failover)) == Str("Failover")
  {
  }

  /** A list is read element by element. */
  lemma {:induction false} ElementAt<T>(f: T -> Tree, s: seq<T>, i: nat)
    requires i < |s|
    ensures |Elements(Array(f, s))| == |s| && Elements(Array(f, s))[i] == f(s[i])
  {
    var init := s[..|s| - 1];
    assert Elements(Array(f, s)) == Elements(Array(f, init)) + [f(s[|s| - 1])];
    if i < |s| - 1 {
      ElementAt(f, init, i);
    } else if i > 0 {
      ElementAt(f, init, i - 1);
    } else {
      assert Elements(Array(f, init)) == [];
    }
  }

  /** An endpoint is listed by its configured name, or as `endpoint_<id>`. */
  lemma EndpointNameAt(names: Names, ids: seq<nat>, i: nat)
    requires i < |ids|
    ensures |Elements(Array(NameTree(names), ids))| == |ids|
    ensures ids[i] in names ==> Elements(Array(NameTree(names), ids))[i] == Str(names[ids[i]])
    ensures ids[i] !in names ==> Elements(Array(NameTree(names), ids))[i] == Str("endpoint_" + Decimal(ids[i]))
  {
    hide Decimal, Elements;
    ElementAt(NameTree(names), ids, i);
  }

  // ---- objects ----

  lemma BoardFields(names: Names, x: Board)
    ensures Fields(BoardTree(names, x)) == map[
      "sender_id" := Str(x.senderId), "reachable_endpoints" := Array(NameTree(names), x.reachableEndpoints),
      "reachable_endpoint_ids" := Array(NumTree, x.reachableEndpoints),
      "reachable_timesync_sources" := Array(StrTree, x.reachableTimesyncSources),
      "connections" := Array(StrTree, x.connections)
    ]
  {
    hide FieldsOf, Listed;
    FieldsGrow();
  }

  lemma LinkFields(x: Link)
    ensures Fields(LinkTree(x)) == map[
      "source" := Str(x.source), "target" := Str(x.target)
    ]
  {
    hide FieldsOf, Listed;
    FieldsGrow();
  }

  lemma AnnouncerFields(names: Names, x: Announcer)
    ensures Fields(AnnouncerTree(names, x)) == map[
      "sender_id" := Str(x.senderId), "reachable_endpoints" := Array(NameTree(names), x.reachableEndpoints),
      "reachable_endpoint_ids" := Array(NumTree, x.reachableEndpoints),
      "reachable_network_" + "variables" := Array(NumTree, x.reachableNetworkVariables),
      "reachable_timesync_sources" := Array(StrTree, x.reachableTimesyncSources),
      "routers" := Array(BoardTreeIn(names), x.routers), "last_seen_ms" := Num(x.lastSeenMs),
      "age_ms" := Num(x.ageMs)
    ]
  {
    hide FieldsOf, Listed;
    FieldsGrow();
  }

  lemma RouteFields(names: Names, x: Route)
    ensures Fields(RouteTree(names, x)) == map[
      "side_id" := Num(x.sideId), "side_name" := Str(x.sideName),
      "reachable_endpoints" := Array(NameTree(names), x.reachableEndpoints),
      "reachable_endpoint_ids" := Array(NumTree, x.reachableEndpoints),
      "reachable_network_" + "variables" := Array(NumTree, x.reachableNetworkVariables),
      "reachable_timesync_sources" := Array(StrTree, x.reachableTimesyncSources),
      "announcers" := Array(AnnouncerTreeIn(names), x.announcers), "last_seen_ms" := Num(x.lastSeenMs),
      "age_ms" := Num(x.ageMs)
    ]
  {
    hide FieldsOf, Listed;
    FieldsGrow();
  }

  /** The topology text parses, and gives each name its part of the snapshot. */
  lemma TopologyExport(names: Names, x: Topology, text: string)
    requires text == Text(TopologyTree(names, x))
    ensures Document(text) == Some(TopologyTree(names, x))
    ensures Fields(TopologyTree(names, x)) == map[
      "advertised_endpoints" := Array(NameTree(names), x.advertisedEndpoints),
      "advertised_endpoint_ids" := Array(NumTree, x.advertisedEndpoints),
      "advertised_timesync_" + "sources" := Array(StrTree, x.advertisedTimesyncSources),
      "routers" := Array(BoardTreeIn(names), x.routers), "links" := Array(LinkTree, x.links),
      "routes" := Array(RouteTreeIn(names), x.routes),
      "current_announce_interval_" + "ms" := Num(x.currentAnnounceIntervalMs),
      "next_announce_ms" := Num(x.nextAnnounceMs)
    ]
  {
    hide FieldsOf, Listed, Text;
    FieldsGrow();
    Parses(TopologyTree(names, x));
  }

  /** The client statistics text parses, and gives each name its part of the snapshot. */
  lemma ClientStatsExport(names: Names, x: ClientStats, text: string)
    requires text == Text(ClientStatsTree(names, x))
    ensures Document(text) == Some(ClientStatsTree(names, x))
    ensures Fields(ClientStatsTree(names, x)) == map[
      "sender_id" := Str(x.senderId), "connected" := Bool(x.connected), "side_ids" := Array(NumTree, x.sideIds),
      "side_names" := Array(StrTree, x.sideNames), "last_seen_ms" := OptionTree(x.lastSeenMs),
      "age_ms" := OptionTree(x.ageMs), "reachable_endpoints" := Array(NameTree(names), x.reachableEndpoints),
      "reachable_endpoint_ids" := Array(NumTree, x.reachableEndpoints),
      "reachable_timesync_sources" := Array(StrTree, x.reachableTimesyncSources),
      "packets_sent" := Num(x.packetsSent), "packets_received" := Num(x.packetsReceived),
      "bytes_sent" := Num(x.bytesSent), "bytes_received" := Num(x.bytesReceived)
    ]
  {
    hide FieldsOf, Listed, Text;
    FieldsGrow();
    Parses(ClientStatsTree(names, x));
  }

  lemma TypeStatsFields(x: TypeStats)
    ensures Fields(TypeStatsTree(x)) == map[
      "data_type" := Num(x.dataType), "tx_packets" := Num(x.txPackets), "tx_bytes" := Num(x.txBytes),
      "rx_packets" := Num(x.rxPackets), "rx_bytes" := Num(x.rxBytes),
      "relayed_tx_packets" := Num(x.relayedTxPackets), "relayed_tx_bytes" := Num(x.relayedTxBytes),
      "relayed_rx_packets" := Num(x.relayedRxPackets), "relayed_rx_bytes" := Num(x.relayedRxBytes),
      "tx_retries" := Num(x.txRetries), "handler_failures" := Num(x.handlerFailures)
    ]
  {
    hide FieldsOf, Listed;
    FieldsGrow();
  }

  lemma AdaptiveFields(x: Adaptive)
    ensures Fields(Obj(AdaptiveMembers(x))) == map[
      "auto_balancing_enabled" := Bool(x.autoBalancingEnabled),
      "estimated_capacity_bps" := Num(x.estimatedCapacityBps), "peak_capacity_bps" := Num(x.peakCapacityBps),
      "current_usage_bps" := Num(x.currentUsageBps), "peak_usage_bps" := Num(x.peakUsageBps),
      "available_headroom_bps" := Num(x.availableHeadroomBps), "effective_weight" := Num(x.effectiveWeight),
      "last_observed_ms" := Num(x.lastObservedMs), "sample_count" := Num(x.sampleCount)
    ]
  {
    hide FieldsOf, Listed;
    FieldsGrow();
  }

  lemma SideFields(x: Side)
    ensures Fields(SideTree(x)) == map[
      "side_id" := Num(x.sideId), "side_name" := Str(x.sideName), "reliable_enabled" := Bool(x.reliableEnabled),
      "link_local_enabled" := Bool(x.linkLocalEnabled), "header_template_enabled" := Bool(x.headerTemplateEnabled),
      "max_frame_bytes" := Num(x.maxFrameBytes),
      "compact_header_target_" + "bytes" := Num(x.compactHeaderTargetBytes),
      "max_side_transport_" + "templates" := Num(x.maxSideTransportTemplates),
      "side_transport_profile" := Str(x.sideTransportProfile), "ingress_enabled" := Bool(x.ingressEnabled),
      "egress_enabled" := Bool(x.egressEnabled), "tx_packets" := Num(x.txPackets), "tx_bytes" := Num(x.txBytes),
      "rx_packets" := Num(x.rxPackets), "rx_bytes" := Num(x.rxBytes),
      "relayed_tx_packets" := Num(x.relayedTxPackets), "relayed_tx_bytes" := Num(x.relayedTxBytes),
      "relayed_rx_packets" := Num(x.relayedRxPackets), "relayed_rx_bytes" := Num(x.relayedRxBytes),
      "local_delivery_packets" := Num(x.localDeliveryPackets), "tx_retries" := Num(x.txRetries),
      "tx_handler_failures" := Num(x.txHandlerFailures), "local_handler_failures" := Num(x.localHandlerFailures),
      "total_handler_retries" := Num(x.totalHandlerRetries),
      "side_transport_full_frames" := Num(x.sideTransportFullFrames),
      "side_transport_compact_" + "frames" := Num(x.sideTransportCompactFrames),
      "side_transport_compact_" + "delta_frames" := Num(x.sideTransportCompactDeltaFrames),
      "side_transport_compact_" + "omitted_timestamp_frames" := Num(x.sideTransportCompactOmittedTimestampFrames),
      "side_transport_chunk_" + "frames" := Num(x.sideTransportChunkFrames),
      "side_transport_chunk_" + "reclaims" := Num(x.sideTransportChunkReclaims),
      "side_transport_raw_bytes" := Num(x.sideTransportRawBytes),
      "side_transport_wire_bytes" := Num(x.sideTransportWireBytes),
      "side_transport_bytes_saved" := Num(x.sideTransportBytesSaved),
      "side_transport_compact_" + "target_misses" := Num(x.sideTransportCompactTargetMisses),
      "side_transport_template_" + "evictions" := Num(x.sideTransportTemplateEvictions),
      "side_transport_tx_template_" + "count" := Num(x.sideTransportTxTemplateCount),
      "side_transport_rx_template_" + "count" := Num(x.sideTransportRxTemplateCount),
      "side_transport_min_compact_" + "overhead_bytes" := OptionTree(x.sideTransportMinCompactOverheadBytes),
      "side_transport_max_compact_" + "overhead_bytes" := OptionTree(x.sideTransportMaxCompactOverheadBytes),
      "adaptive" := Obj(AdaptiveMembers(x.adaptive)), "data_types" := Array(TypeStatsTree, x.dataTypes)
    ]
  {
    hide FieldsOf, Listed;
    FieldsGrow();
  }

  lemma RouteModeFields(x: RouteMode)
    ensures Fields(RouteModeTree(x)) == map[
      "src_side_id" := OptionTree(x.srcSideId), "selection_mode" := ModeTree(x.selectionMode),
      "cursor" := Num(x.cursor)
    ]
  {
    hide FieldsOf, Listed;
    FieldsGrow();
  }

  lemma RouteOverrideFields(x: RouteOverride)
    ensures Fields(RouteOverrideTree(x)) == map[
      "src_side_id" := OptionTree(x.srcSideId), "dst_side_id" := Num(x.dstSideId), "enabled" := Bool(x.enabled)
    ]
  {
    hide FieldsOf, Listed;
    FieldsGrow();
  }

  lemma TypedOverrideFields(x: TypedOverride)
    ensures Fields(TypedOverrideTree(x)) == map[
      "src_side_id" := OptionTree(x.srcSideId), "data_type" := Num(x.dataType), "dst_side_id" := Num(x.dstSideId),
      "enabled" := Bool(x.enabled)
    ]
  {
    hide FieldsOf, Listed;
    FieldsGrow();
  }

  lemma RouteWeightFields(x: RouteWeight)
    ensures Fields(RouteWeightTree(x)) == map[
      "src_side_id" := OptionTree(x.srcSideId), "dst_side_id" := Num(x.dstSideId), "weight" := Num(x.weight)
    ]
  {
    hide FieldsOf, Listed;
    FieldsGrow();
  }

  lemma RoutePriorityFields(x: RoutePriority)
    ensures Fields(RoutePriorityTree(x)) == map[
      "src_side_id" := OptionTree(x.srcSideId), "dst_side_id" := Num(x.dstSideId), "priority" := Num(x.priority)
    ]
  {
    hide FieldsOf, Listed;
    FieldsGrow();
  }

  lemma QueuesFields(x: Queues)
    ensures Fields(Obj(QueuesMembers(x))) == map[
      "rx_len" := Num(x.rxLen), "rx_bytes" := Num(x.rxBytes), "tx_len" := Num(x.txLen),
      "tx_bytes" := Num(x.txBytes), "replay_len" := Num(x.replayLen), "replay_bytes" := Num(x.replayBytes),
      "recent_rx_len" := Num(x.recentRxLen), "recent_rx_bytes" := Num(x.recentRxBytes),
      "reliable_rx_buffered_len" := Num(x.reliableRxBufferedLen),
      "reliable_rx_buffered_bytes" := Num(x.reliableRxBufferedBytes),
      "shared_queue_bytes_used" := Num(x.sharedQueueBytesUsed)
    ]
  {
    hide FieldsOf, Listed;
    FieldsGrow();
  }

  lemma ReliableFields(x: Reliable)
    ensures Fields(Obj(ReliableMembers(x))) == map[
      "reliable_return_route_" + "count" := Num(x.reliableReturnRouteCount),
      "end_to_end_pending_count" := Num(x.endToEndPendingCount),
      "end_to_end_pending_" + "destination_count" := Num(x.endToEndPendingDestinationCount),
      "end_to_end_acked_cache_" + "count" := Num(x.endToEndAckedCacheCount)
    ]
  {
    hide FieldsOf, Listed;
    FieldsGrow();
  }

  lemma DiscoveryFields(x: Discovery)
    ensures Fields(Obj(DiscoveryMembers(x))) == map[
      "route_count" := Num(x.routeCount), "announcer_count" := Num(x.announcerCount),
      "current_announce_interval_" + "ms" := OptionTree(x.currentAnnounceIntervalMs),
      "next_announce_ms" := OptionTree(x.nextAnnounceMs)
    ]
  {
    hide FieldsOf, Listed;
    FieldsGrow();
  }

  /** The runtime statistics text parses, and gives each name its part of the snapshot. */
  lemma RuntimeStatsExport(x: RuntimeStats, text: string)
    requires text == Text(RuntimeStatsTree(x))
    ensures Document(text) == Some(RuntimeStatsTree(x))
    ensures Fields(RuntimeStatsTree(x)) == map[
      "sides" := Array(SideTree, x.sides), "route_modes" := Array(RouteModeTree, x.routeModes),
      "route_overrides" := Array(RouteOverrideTree, x.routeOverrides),
      "typed_route_overrides" := Array(TypedOverrideTree, x.typedRouteOverrides),
      "route_weights" := Array(RouteWeightTree, x.routeWeights),
      "route_priorities" := Array(RoutePriorityTree, x.routePriorities), "queues" := Obj(QueuesMembers(x.queues)),
      "reliable" := Obj(ReliableMembers(x.reliable)), "discovery" := Obj(DiscoveryMembers(x.discovery)),
      "total_handler_failures" := Num(x.totalHandlerFailures), "total_handler_retries" := Num(x.totalHandlerRetries)
    ]
  {
    hide FieldsOf, Listed, Text;
    FieldsGrow();
    Parses(RuntimeStatsTree(x));
  }
  /** All the way down: the ends of link `i`, read from the printed text. */
  lemma LinkEnds(names: Names, x: Topology, i: nat, text: string)
    requires text == Text(TopologyTree(names, x)) && i < |x.links|
    ensures Document(text).Some? && "links" in Fields(Document(text).value)
    ensures var links := Elements(Fields(Document(text).value)["links"]);
      && |links| == |x.links|
      && Fields(links[i]) == map["source" := Str(x.links[i].source), "target" := Str(x.links[i].target)]
  {
    hide Text, TopologyTree, LinkTree, Document, Elements, Fields;
    TopologyExport(names, x, text);
    ElementAt(LinkTree, x.links, i);
    LinkFields(x.links[i]);
  }
}
