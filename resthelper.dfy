/**
 * Response envelopes: the status code and the record that would be marshalled to JSON
 * (the JSON text and the HTTP writer are not modelled).
 */
module RestHelper {
  import opened Events

  /** One delivered event, as the client sees it. */
  datatype EventData = EventData(timeStamp: Timestamp, payload: Payload)

  /** The key under which the subscribe reply carries the new subscription's id. */
  datatype IdField = ConnectionID | SubscriptionID

  datatype Body =
    | ErrorResponse(error: bool, errorCode: int, message: string)
    | StatusMessage(error: bool, message: string)
    | EventsData(error: bool, events: seq<EventData>)
    | FeedsReply(feeds: seq<string>, idField: IdField, id: string)

  datatype Response = Response(status: int, body: Body)

  /** `SendError`: the given status, and an error record carrying the same code and the message. */
  function SendError(code: int, message: string): (r: Response)
    ensures r.status == code && r.body.ErrorResponse? && r.body.error
    ensures r.body.errorCode == r.status && r.body.message == message
  {
    Response(code, ErrorResponse(true, code, message))
  }

  /** `SendOK`: status 200, no error, message "OK". */
  function SendOK(): (r: Response)
    ensures r.status == 200 && r.body.StatusMessage? && !r.body.error && r.body.message == "OK"
  {
    Response(200, StatusMessage(false, "OK"))
  }

  /** `SendTimeout`: status 408, an error flag and the message "timeout". */
  function SendTimeout(): (r: Response)
    ensures r.status == 408 && r.body.StatusMessage? && r.body.error && r.body.message == "timeout"
  {
    Response(408, StatusMessage(true, "timeout"))
  }

  /** The delivery records of a list of events: creation time and payload of each, in order. */
  function EventDataOf(events: seq<Event>): seq<EventData>
  {
    seq(|events|, i requires 0 <= i < |events| => EventData(events[i].ts, events[i].payload))
  }

  /** `SendEvents`: status 200, no error, one record per event in the same order. */
  method SendEvents(events: seq<Event>) returns (r: Response)
    ensures r.status == 200 && r.body.EventsData? && !r.body.error
    ensures |r.body.events| == |events|
    ensures forall i :: 0 <= i < |events| ==> r.body.events[i] == EventData(events[i].ts, events[i].payload)
    ensures r.body.events == EventDataOf(events)
  {
    var data: seq<EventData> := [];
    for i := 0 to |events|
      invariant |data| == i
      invariant forall j :: 0 <= j < i ==> data[j] == EventData(events[j].ts, events[j].payload)
    {
      data := data + [EventData(events[i].ts, events[i].payload)];
    }
    r := Response(200, EventsData(false, data));
  }

  /** `SendResponse`: any record, always with status 200. */
  function SendResponse(reply: Body): (r: Response)
    ensures r.status == 200 && r.body == reply
  {
    Response(200, reply)
  }
}
