/** The request-size limiter: a handler that marks the response 413 Payload
    Too Large when the request body's size hint has an upper bound above the
    configured limit. */
module SizeLimiter {
  import opened Io

  /** `u64` */
  newtype u64 = x: int | 0 <= x < 0x1_0000_0000_0000_0000

  /** A request body, seen through its size hint's upper bound (`None` when
      the body cannot tell how large it is). */
  datatype Body = Body(upperHint: Option<u64>)

  datatype Request = Request(body: Option<Body>)

  /** A body made from a whole string knows its exact size: the number of
      bytes of its UTF-8 encoding, which is what `content` holds. */
  function FullBody(content: seq<byte>): (b: Body)
    requires |content| < 0x1_0000_0000_0000_0000
    ensures b.upperHint == Some(|content| as u64)
  {
    Body(Some(|content| as u64))
  }

  /** The one error this handler sets. */
  datatype StatusError = PayloadTooLarge
  {
    function Code(): int {
      413
    }
  }

  /** The parts of a response the handler can change. */
  class Response {
    var statusCode: Option<int>
    var httpError: Option<StatusError>

    constructor ()
      ensures statusCode == None && httpError == None
    {
      statusCode := None;
      httpError := None;
    }

    /** `set_http_error`: records the error and takes its status code. */
    method SetHttpError(err: StatusError)
      modifies this
      ensures httpError == Some(err) && statusCode == Some(err.Code())
    {
      httpError := Some(err);
      statusCode := Some(err.Code());
    }
  }

  /** `req.body().and_then(|body| body.size_hint().upper())` */
  function UpperBound(req: Request): (r: Option<u64>)
    ensures r.Some? <==> req.body.Some? && req.body.value.upperHint.Some?
    ensures r.Some? ==> r.value == req.body.value.upperHint.value
  {
    match req.body
    case None => None
    case Some(b) => b.upperHint
  }

  datatype MaxSizeHandler = MaxSizeHandler(limit: u64)
  {
    /** The handler refuses a request exactly when its body has a known upper
        bound strictly above the limit. */
    predicate TooLarge(req: Request) {
      match UpperBound(req)
      case Some(upper) => upper > limit
      case None => false
    }

    /** `handle`: sets 413 Payload Too Large on an oversized request and
        leaves the response alone otherwise. */
    method Handle(req: Request, res: Response)
      modifies res
      ensures TooLarge(req) ==> res.httpError == Some(PayloadTooLarge) && res.statusCode == Some(413)
      ensures !TooLarge(req) ==> res.httpError == old(res.httpError) && res.statusCode == old(res.statusCode)
    {
      var upper := UpperBound(req);
      if upper.Some? {
        if upper.value > limit {
          res.SetHttpError(PayloadTooLarge());
        }
      }
    }
  }

  /** `max_size(size)`: a handler whose limit is `size`. */
  function MaxSize(size: u64): (h: MaxSizeHandler)
    ensures h.limit == size
  {
    MaxSizeHandler(size)
  }

  /** Only a body with a known upper bound strictly above the limit is
      refused: no body, an unknown bound, or a bound at or under the limit
      all pass. */
  lemma TooLargeExactly(h: MaxSizeHandler, req: Request)
    ensures h.TooLarge(req) <==>
      req.body.Some? && req.body.value.upperHint.Some? && req.body.value.upperHint.value > h.limit
  {
  }

  /** Lowering the limit never lets through a request that was refused. */
  lemma TooLargeMonotone(req: Request, low: u64, high: u64)
    requires low <= high
    ensures MaxSize(high).TooLarge(req) ==> MaxSize(low).TooLarge(req)
  {
  }

  /** With a limit of 32, the body "abc" leaves the response alone and a
      104-byte body gets status 413. */
  method LimitOf32() returns (small: Option<int>, large: Option<int>)
    ensures small == None && large == Some(413)
  {
    var handler := MaxSize(32);
    var res := new Response();
    // "abc" in UTF-8
    handler.Handle(Request(Some(FullBody([0x61, 0x62, 0x63]))), res);
    small := res.statusCode;
    // "abcdefghijklmnopqrstuvwxyz" four times over, in UTF-8
    var long := seq(104, i requires 0 <= i < 104 => (0x61 + i % 26) as byte);
    res := new Response();
    handler.Handle(Request(Some(FullBody(long))), res);
    large := res.statusCode;
  }
}
