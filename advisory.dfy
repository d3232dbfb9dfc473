/**
 * The advisory loop across the WebSocket: the server's answer to a buffer-health report
 * (server/server.js) and the player's reading of that answer (client/js/adaptive-player.js).
 */
module Advisory {
  import opened Protocol
  import opened QualityControl
  import Streaming
  import Playback

  /**
   * A buffer under 3 s makes the server advise "decrease", which an auto-mode player reads as
   * one tier down; over 15 s, "increase", one tier up; in between the server stays silent.
   */
  lemma BufferAdviceMovesOneTier(current: Tier, bufferHealth: real)
    ensures var sent := Streaming.HandleBufferHealth(bufferHealth);
      && (bufferHealth < 3.0 && current != UltraLow ==>
            && |sent| == 1 && sent[0].QualityRecommendation?
            && var target := Playback.RecommendedTarget(current, sent[0].action);
               target.Some? && Index(target.value) + 1 == Index(current))
      && (bufferHealth > 15.0 && current != High ==>
            && |sent| == 1 && sent[0].QualityRecommendation?
            && var target := Playback.RecommendedTarget(current, sent[0].action);
               target.Some? && Index(target.value) == Index(current) + 1)
      && (3.0 <= bufferHealth <= 15.0 ==> sent == [])
  {
  }
}
