/** The messages of the advisory WebSocket channel, once parsed from JSON. */
module Protocol {

  /** What the player sends to the server. */
  datatype ClientMessage =
    | BandwidthReport(bandwidth: nat, clientId: string)        // type "bandwidth-report"
    | BufferHealthReport(bufferHealth: real, clientId: string)  // type "buffer-health"
    | QualityChangeReport(quality: string, clientId: string)    // type "quality-change"
    | OtherClientMessage(kind: string)                          // any other type

  /** What the server sends to the player. */
  datatype ServerMessage =
    | QualityRecommendation(action: string, reason: string)     // type "quality-recommendation"
    | OtherServerMessage(kind: string)                          // any other type
}
