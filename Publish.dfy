/**
 * PublishEvent: the request must name both a pub/sub component and a topic
 * before the publish function is called.
 */
module Publish {
  import opened Wrappers
  import opened Rpc

  datatype PublishEventRequest = PublishEventRequest(pubsubName: string, topic: string, data: string)

  /** What the publish function receives. */
  datatype PublishRequest = PublishRequest(pubsubName: string, topic: string, data: string)

  /** The publish function: None for success, Some(text) for an error it returns. */
  type PublishFn = PublishRequest -> Option<string>

  function PublishRequestOf(req: PublishEventRequest): PublishRequest {
    PublishRequest(req.pubsubName, req.topic, req.data)
  }

  /**
   * A request missing its pub/sub name or its topic fails with
   * InvalidArgument; a complete one succeeds exactly when the publish
   * function, called with the request's name, topic and data, returns no
   * error, and the function's error text reaches the caller as Unknown.
   */
  function PublishEvent(req: PublishEventRequest, publish: PublishFn): (r: Status)
    ensures (req.pubsubName == "" || req.topic == "") ==> r.code == InvalidArgument
    ensures r.code == OK <==> req.pubsubName != "" && req.topic != "" && publish(PublishRequestOf(req)).None?
    ensures req.pubsubName != "" && req.topic != "" && publish(PublishRequestOf(req)).Some? ==>
      r == Error(Unknown, publish(PublishRequestOf(req)).value)
  {
    if req.pubsubName == "" then Error(InvalidArgument, "")
    else if req.topic == "" then Error(InvalidArgument, "")
    else match publish(PublishRequestOf(req))
      case None => OkStatus
      case Some(e) => Error(Unknown, e)
  }

  /** An incomplete request is refused before the publish function is called: its outcome does not depend on it. */
  lemma ValidationPrecedesPublish(req: PublishEventRequest, p: PublishFn, q: PublishFn)
    requires req.pubsubName == "" || req.topic == ""
    ensures PublishEvent(req, p) == PublishEvent(req, q)
  {
  }

  /** The three calls of `TestPublishTopic`, with a publish function that always succeeds. */
  lemma TestPublishTopicCases()
    ensures var ok: PublishFn := _ => None;
      && PublishEvent(PublishEventRequest("", "", ""), ok).code != OK
      && PublishEvent(PublishEventRequest("pubsub", "", ""), ok).code != OK
      && PublishEvent(PublishEventRequest("pubsub", "topic", ""), ok) == OkStatus
  {
  }
}
