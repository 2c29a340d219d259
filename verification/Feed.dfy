/** What callers hand to ActivityFeed.record (skill/src/autonomy/activity-feed.ts). */
module Feed {
  import opened Common

  datatype Details =
    | NoDetails
    | TripDetails(trigger: string, count: int, threshold: int, windowMs: int)
    | DecisionDetails(action: string, confidence: string, reasoning: string)

  datatype FeedEvent = FeedEvent(connectionAddress: string, eventType: string, messageId: Option<string>,
                                 badge: Option<string>, details: Details, actorPubkey: Option<string>,
                                 actionType: Option<string>, messageHash: Option<string>)

  /** The fields the agent's own components fill in. */
  function Entry(address: string, eventType: string, messageId: Option<string>, badge: string, details: Details,
                 actionType: Option<string>): FeedEvent {
    FeedEvent(address, eventType, messageId, Some(badge), details, None, actionType, None)
  }
}
