/**
 * The consumer-side handler of app/internal/handler/point.go: decode the
 * message, hand the order to the service, and acknowledge in every case.
 * Decoding is an input: the order the message decodes to, or None when
 * json.Unmarshal rejects it.
 */
module PointHandler {
  import opened Wrappers
  import opened Model
  import opened PointRepository
  import opened PointService

  class PointHandler {
    const pointService: PointService

    constructor (pointService: PointService)
      ensures this.pointService == pointService
    {
      this.pointService := pointService;
    }

    /**
     * SuccessOrderProcess: an undecodable message reaches no service call; a
     * decoded one reaches exactly one, with the order as decoded; either way,
     * and whatever the service returns, the handler returns no error.
     */
    method SuccessOrderProcess(decoded: Option<SuccessOrder>, env: seq<Round>, delivered: bool) returns (err: Option<ServiceError>)
      modifies pointService, pointService.pointRepository.db, pointService.producer
      ensures err == None
      ensures decoded.None? ==>
                && pointService.received == old(pointService.received)
                && pointService.pointRepository.db.rows == old(pointService.pointRepository.db.rows)
                && pointService.producer.sent == old(pointService.producer.sent)
      ensures decoded.Some? ==>
                && pointService.received == old(pointService.received) + [decoded.value]
                && var o := Process(decoded.value, pointService.catalog, pointService.decreasePointSuccessTopic,
                                    old(pointService.pointRepository.db.rows), pointService.pointRepository.maxAttempt,
                                    env, delivered);
                   && pointService.pointRepository.db.rows == o.rows
                   && pointService.producer.sent == old(pointService.producer.sent) + o.published
    {
      if decoded.None? {
        // the decode error is logged and the message acknowledged
        return None;
      }
      var serviceErr := pointService.DecreasePoint(decoded.value, env, delivered);
      if serviceErr.Some? {
        // the service error is logged and the message acknowledged
        return None;
      }
      return None;
    }
  }
}
