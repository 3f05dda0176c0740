/** The member names of the snapshot documents. */
module SnapshotKeys {
  import opened Json

  /** Long names are joined from two parts: the plainness of each part is then a
      short check of its own. */
  function Joined(a: Key, b: Key): Key { a + b }

  const SENDER_ID: Key := "sender_id"
  const REACHABLE_ENDPOINTS: Key := "reachable_endpoints"
  const REACHABLE_ENDPOINT_IDS: Key := "reachable_endpoint_ids"
  const REACHABLE_TIMESYNC_SOURCES: Key := "reachable_timesync_sources"
  const CONNECTIONS: Key := "connections"
  const SOURCE: Key := "source"
  const TARGET: Key := "target"
  const REACHABLE_NETWORK_VARIABLES: Key := Joined("reachable_network_", "variables")
  const ROUTERS: Key := "routers"
  const LAST_SEEN_MS: Key := "last_seen_ms"
  const AGE_MS: Key := "age_ms"
  const SIDE_ID: Key := "side_id"
  const SIDE_NAME: Key := "side_name"
  const ANNOUNCERS: Key := "announcers"
  const ADVERTISED_ENDPOINTS: Key := "advertised_endpoints"
  const ADVERTISED_ENDPOINT_IDS: Key := "advertised_endpoint_ids"
  const ADVERTISED_TIMESYNC_SOURCES: Key := Joined("advertised_timesync_", "sources")
  const LINKS: Key := "links"
  const ROUTES: Key := "routes"
  const CURRENT_ANNOUNCE_INTERVAL_MS: Key := Joined("current_announce_interval_", "ms")
  const NEXT_ANNOUNCE_MS: Key := "next_announce_ms"
  const CONNECTED: Key := "connected"
  const SIDE_IDS: Key := "side_ids"
  const SIDE_NAMES: Key := "side_names"
  const PACKETS_SENT: Key := "packets_sent"
  const PACKETS_RECEIVED: Key := "packets_received"
  const BYTES_SENT: Key := "bytes_sent"
  const BYTES_RECEIVED: Key := "bytes_received"
  const DATA_TYPE: Key := "data_type"
  const TX_PACKETS: Key := "tx_packets"
  const TX_BYTES: Key := "tx_bytes"
  const RX_PACKETS: Key := "rx_packets"
  const RX_BYTES: Key := "rx_bytes"
  const RELAYED_TX_PACKETS: Key := "relayed_tx_packets"
  const RELAYED_TX_BYTES: Key := "relayed_tx_bytes"
  const RELAYED_RX_PACKETS: Key := "relayed_rx_packets"
  const RELAYED_RX_BYTES: Key := "relayed_rx_bytes"
  const TX_RETRIES: Key := "tx_retries"
  const HANDLER_FAILURES: Key := "handler_failures"
  const AUTO_BALANCING_ENABLED: Key := "auto_balancing_enabled"
  const ESTIMATED_CAPACITY_BPS: Key := "estimated_capacity_bps"
  const PEAK_CAPACITY_BPS: Key := "peak_capacity_bps"
  const CURRENT_USAGE_BPS: Key := "current_usage_bps"
  const PEAK_USAGE_BPS: Key := "peak_usage_bps"
  const AVAILABLE_HEADROOM_BPS: Key := "available_headroom_bps"
  const EFFECTIVE_WEIGHT: Key := "effective_weight"
  const LAST_OBSERVED_MS: Key := "last_observed_ms"
  const SAMPLE_COUNT: Key := "sample_count"
  const RELIABLE_ENABLED: Key := "reliable_enabled"
  const LINK_LOCAL_ENABLED: Key := "link_local_enabled"
  const HEADER_TEMPLATE_ENABLED: Key := "header_template_enabled"
  const MAX_FRAME_BYTES: Key := "max_frame_bytes"
  const COMPACT_HEADER_TARGET_BYTES: Key := Joined("compact_header_target_", "bytes")
  const MAX_SIDE_TRANSPORT_TEMPLATES: Key := Joined("max_side_transport_", "templates")
  const SIDE_TRANSPORT_PROFILE: Key := "side_transport_profile"
  const INGRESS_ENABLED: Key := "ingress_enabled"
  const EGRESS_ENABLED: Key := "egress_enabled"
  const LOCAL_DELIVERY_PACKETS: Key := "local_delivery_packets"
  const TX_HANDLER_FAILURES: Key := "tx_handler_failures"
  const LOCAL_HANDLER_FAILURES: Key := "local_handler_failures"
  const TOTAL_HANDLER_RETRIES: Key := "total_handler_retries"
  const SIDE_TRANSPORT_FULL_FRAMES: Key := "side_transport_full_frames"
  const SIDE_TRANSPORT_COMPACT_FRAMES: Key := Joined("side_transport_compact_", "frames")
  const SIDE_TRANSPORT_COMPACT_DELTA_FRAMES: Key := Joined("side_transport_compact_", "delta_frames")
  const SIDE_TRANSPORT_COMPACT_OMITTED_TIMESTAMP_FRAMES: Key :=
    Joined("side_transport_compact_", "omitted_timestamp_frames")
  const SIDE_TRANSPORT_CHUNK_FRAMES: Key := Joined("side_transport_chunk_", "frames")
  const SIDE_TRANSPORT_CHUNK_RECLAIMS: Key := Joined("side_transport_chunk_", "reclaims")
  const SIDE_TRANSPORT_RAW_BYTES: Key := "side_transport_raw_bytes"
  const SIDE_TRANSPORT_WIRE_BYTES: Key := "side_transport_wire_bytes"
  const SIDE_TRANSPORT_BYTES_SAVED: Key := "side_transport_bytes_saved"
  const SIDE_TRANSPORT_COMPACT_TARGET_MISSES: Key := Joined("side_transport_compact_", "target_misses")
  const SIDE_TRANSPORT_TEMPLATE_EVICTIONS: Key := Joined("side_transport_template_", "evictions")
  const SIDE_TRANSPORT_TX_TEMPLATE_COUNT: Key := Joined("side_transport_tx_template_", "count")
  const SIDE_TRANSPORT_RX_TEMPLATE_COUNT: Key := Joined("side_transport_rx_template_", "count")
  const SIDE_TRANSPORT_MIN_COMPACT_OVERHEAD_BYTES: Key := Joined("side_transport_min_compact_", "overhead_bytes")
  const SIDE_TRANSPORT_MAX_COMPACT_OVERHEAD_BYTES: Key := Joined("side_transport_max_compact_", "overhead_bytes")
  const ADAPTIVE: Key := "adaptive"
  const DATA_TYPES: Key := "data_types"
  const SRC_SIDE_ID: Key := "src_side_id"
  const SELECTION_MODE: Key := "selection_mode"
  const CURSOR: Key := "cursor"
  const DST_SIDE_ID: Key := "dst_side_id"
  const ENABLED: Key := "enabled"
  const WEIGHT: Key := "weight"
  const PRIORITY: Key := "priority"
  const RX_LEN: Key := "rx_len"
  const TX_LEN: Key := "tx_len"
  const REPLAY_LEN: Key := "replay_len"
  const REPLAY_BYTES: Key := "replay_bytes"
  const RECENT_RX_LEN: Key := "recent_rx_len"
  const RECENT_RX_BYTES: Key := "recent_rx_bytes"
  const RELIABLE_RX_BUFFERED_LEN: Key := "reliable_rx_buffered_len"
  const RELIABLE_RX_BUFFERED_BYTES: Key := "reliable_rx_buffered_bytes"
  const SHARED_QUEUE_BYTES_USED: Key := "shared_queue_bytes_used"
  const RELIABLE_RETURN_ROUTE_COUNT: Key := Joined("reliable_return_route_", "count")
  const END_TO_END_PENDING_COUNT: Key := "end_to_end_pending_count"
  const END_TO_END_PENDING_DESTINATION_COUNT: Key := Joined("end_to_end_pending_", "destination_count")
  const END_TO_END_ACKED_CACHE_COUNT: Key := Joined("end_to_end_acked_cache_", "count")
  const ROUTE_COUNT: Key := "route_count"
  const ANNOUNCER_COUNT: Key := "announcer_count"
  const SIDES: Key := "sides"
  const ROUTE_MODES: Key := "route_modes"
  const ROUTE_OVERRIDES: Key := "route_overrides"
  const TYPED_ROUTE_OVERRIDES: Key := "typed_route_overrides"
  const ROUTE_WEIGHTS: Key := "route_weights"
  const ROUTE_PRIORITIES: Key := "route_priorities"
  const QUEUES: Key := "queues"
  const RELIABLE: Key := "reliable"
  const DISCOVERY: Key := "discovery"
  const TOTAL_HANDLER_FAILURES: Key := "total_handler_failures"
}
