/**
 * The laptop service handlers of service/laptop_server.go over the in-memory
 * laptop and rating stores. Streams are the finite sequences of what
 * `Recv` returns; `ctx(i)` is the state of the stream's context when the
 * handler looks at it before the i-th receive. UUID parsing and generation
 * and the image store are inputs: `parseError(id)` is the error text of
 * `uuid.Parse`, `newId` the outcome of `uuid.NewRandom`, `saveImage` the
 * image store's `Save`.
 */
module LaptopService {
  import opened Wrappers
  import opened Grpc
  import opened StoreErrors
  import opened Fmt
  import opened LaptopStore

  /** `maxImageSize`: 1 << 20 bytes. */
  const MaxImageSize: nat := 0x10_0000

  /** `contextError`: Canceled or DeadlineExceeded for a stopped context, nothing for a live one. */
  function ContextError(ctx: ContextState): (err: Option<Status>)
    ensures err.None? <==> ctx == Live
    ensures ctx == ContextCanceled ==> err == Some(Status(Canceled, "request is canceled"))
    ensures ctx == ContextDeadlineExceeded ==> err == Some(Status(DeadlineExceeded, "deadline is exceeded"))
  {
    match ctx
    case ContextCanceled => Some(Status(Canceled, "request is canceled"))
    case ContextDeadlineExceeded => Some(Status(DeadlineExceeded, "deadline is exceeded"))
    case Live => None
  }

  /**
   * The id step of `CreateLaptop`: a client-supplied id must parse as a
   * UUID and is kept; an empty id is replaced by a generated one.
   */
  function AssignId(id: string, parseError: string -> Option<string>, newId: Result<string, string>)
    : (r: Result<string, Status>)
    ensures id != "" && parseError(id).Some? ==>
              r == Failure(Status(InvalidArgument, "laptop ID is not a valid UUID: " + parseError(id).value))
    ensures id != "" && parseError(id).None? ==> r == Success(id)
    ensures id == "" && newId.Failure? ==> r == Failure(Status(Internal, "cannot generate a new laptop ID: " + newId.error))
    ensures id == "" && newId.Success? ==> r == Success(newId.value)
  {
    if |id| > 0 then
      match parseError(id)
      case Some(e) => Failure(Status(InvalidArgument, "laptop ID is not a valid UUID: " + e))
      case None => Success(id)
    else
      match newId
      case Failure(e) => Failure(Status(Internal, "cannot generate a new laptop ID: " + e))
      case Success(generated) => Success(generated)
  }

  /** A supplied id is never replaced, and the generator is consulted only when no id is supplied. */
  lemma SuppliedIdIsKept(id: string, parseError: string -> Option<string>, n1: Result<string, string>,
                         n2: Result<string, string>)
    requires id != ""
    ensures AssignId(id, parseError, n1) == AssignId(id, parseError, n2)
    ensures AssignId(id, parseError, n1).Success? ==> AssignId(id, parseError, n1).value == id
    ensures AssignId(id, parseError, n1).Failure? ==> AssignId(id, parseError, n1).error.code == InvalidArgument
  {
  }

  /** How `CreateLaptop` reports a store error: AlreadyExists for `ErrAlreadyExists`, Internal for any other. */
  function SaveErrorStatus(e: Error): (s: Status)
    ensures s.code == AlreadyExists <==> e == ErrAlreadyExists
    ensures s.code != AlreadyExists ==> s.code == Internal
    ensures s.message == "cannot save laptop to the store: " + Text(e)
  {
    Status(if e == ErrAlreadyExists then AlreadyExists else Internal, "cannot save laptop to the store: " + Text(e))
  }

  /** The first request of an image upload: `GetInfo`, with empty fields when the request is a chunk. */
  datatype UploadImageRequest = ImageInfo(laptopId: string, imageType: string) | ChunkData(chunk: seq<bv8>)

  /** `GetChunkData`: the bytes of a chunk request, none for an info request. */
  function ChunkOf(req: UploadImageRequest): seq<bv8>
  {
    if req.ChunkData? then req.chunk else []
  }

  /** `GetInfo().GetLaptopId()` and `GetInfo().GetImageType()`, with Go's empty strings for a chunk request. */
  function InfoOf(req: UploadImageRequest): (string, string)
  {
    if req.ImageInfo? then (req.laptopId, req.imageType) else ("", "")
  }

  /** What is handed to the image store. */
  datatype SavedImage = SavedImage(laptopId: string, imageType: string, data: seq<bv8>)

  /** `UploadImageResponse`: the laptop id and the image size. */
  datatype UploadImageResponse = UploadImageResponse(id: string, size: U32)

  /** The end of the chunk loop: all bytes received, a status it returned, or the running size that exceeded the limit. */
  datatype Chunks = Complete(data: seq<bv8>) | Rejected(status: Status) | Oversized(size: nat)

  /** The message of the too-large rejection. */
  function TooLarge(size: nat): Status
  {
    Status(InvalidArgument, "image is too large: " + NatToString(size) + " > " + NatToString(MaxImageSize))
  }

  /**
   * The chunk loop of `UploadImage` from receive i on, with `data` received
   * so far: context check, receive, size check, append.
   */
  function CollectChunks(stream: seq<Recv<UploadImageRequest>>, ctx: nat -> ContextState, i: nat, data: seq<bv8>)
    : (r: Chunks)
    requires |data| <= MaxImageSize
    ensures r.Complete? ==> |r.data| <= MaxImageSize && data <= r.data
    decreases |stream| - i
  {
    if ContextError(ctx(i)).Some? then Rejected(ContextError(ctx(i)).value)
    else if i >= |stream| then Complete(data)
    else match stream[i]
      case EOF => Complete(data)
      case RecvError(e) => Rejected(Status(Unknown, "cannot receive chunk data: " + e))
      case Msg(req) =>
        if |data| + |ChunkOf(req)| > MaxImageSize then Oversized(|data| + |ChunkOf(req)|)
        else CollectChunks(stream, ctx, i + 1, data + ChunkOf(req))
  }

  /** The bytes of the chunks from receive i up to the end of the stream: every message up to EOF. */
  function Payload(stream: seq<Recv<UploadImageRequest>>, i: nat): seq<bv8>
    decreases |stream| - i
  {
    if i >= |stream| then []
    else match stream[i]
      case Msg(req) => ChunkOf(req) + Payload(stream, i + 1)
      case _ => []
  }

  /** The stream from receive i on reaches its end without a receive error. */
  predicate Clean<T>(stream: seq<Recv<T>>, i: nat)
    decreases |stream| - i
  {
    i >= |stream| || (match stream[i] case Msg(_) => Clean(stream, i + 1) case EOF => true case RecvError(_) => false)
  }

  /**
   * A completed upload holds exactly the bytes the client sent, in order;
   * with a live context and a clean stream the upload completes exactly
   * when that payload fits in `MaxImageSize` bytes, and is otherwise
   * rejected as too large.
   */
  lemma {:induction false} CollectChunksPayload(stream: seq<Recv<UploadImageRequest>>, ctx: nat -> ContextState,
                                                i: nat, data: seq<bv8>)
    requires |data| <= MaxImageSize && i <= |stream|
    ensures CollectChunks(stream, ctx, i, data).Complete? ==>
              CollectChunks(stream, ctx, i, data).data == data + Payload(stream, i)
    ensures (forall k :: i <= k <= |stream| ==> ctx(k) == Live) && Clean(stream, i) ==>
              (CollectChunks(stream, ctx, i, data).Complete? <==> |data + Payload(stream, i)| <= MaxImageSize)
    ensures (forall k :: i <= k <= |stream| ==> ctx(k) == Live) && Clean(stream, i) &&
            !CollectChunks(stream, ctx, i, data).Complete? ==>
              CollectChunks(stream, ctx, i, data).Oversized? &&
              CollectChunks(stream, ctx, i, data).size > MaxImageSize
    decreases |stream| - i
  {
    if ContextError(ctx(i)).None? && i < |stream| && stream[i].Msg? {
      var next := data + ChunkOf(stream[i].msg);
      assert Payload(stream, i) == ChunkOf(stream[i].msg) + Payload(stream, i + 1);
      assert data + Payload(stream, i) == next + Payload(stream, i + 1);
      if |next| <= MaxImageSize {
        CollectChunksPayload(stream, ctx, i + 1, next);
      }
    }
  }

  /** The Find failure for a missing laptop, as `cannot find laptop: %v` prints it. */
  function MissingLaptop(id: string): Status
  {
    Status(Internal, "cannot find laptop: " + ErrorText(Status(NotFound, "Laptop with id:  " + id + " not Found.")))
  }

  /**
   * What `UploadImage` hands to the image store, what it hands to
   * `SendAndClose`, and the error it returns, for a store holding `data`.
   */
  function UploadImageOutcome(data: map<string, Laptop>, stream: seq<Recv<UploadImageRequest>>,
                              ctx: nat -> ContextState, saveImage: SavedImage -> Result<string, string>,
                              sendError: Option<string>)
    : (r: (Option<SavedImage>, Option<UploadImageResponse>, Option<Status>))
    ensures r.0.Some? ==> r.0.value.laptopId in data && |r.0.value.data| <= MaxImageSize
    ensures r.1.Some? ==> r.0.Some? && saveImage(r.0.value).Success?
    ensures r.1.Some? ==> r.1.value == UploadImageResponse(r.0.value.laptopId, |r.0.value.data|)
    ensures r.2.None? <==> r.1.Some? && sendError.None?
    ensures r.0.None? ==> r.2.Some?
    ensures !RecvAt(stream, 0).Msg? ==> r == (None, None, Some(Status(Unknown, "cannot receive image info")))
    ensures RecvAt(stream, 0).Msg? && InfoOf(RecvAt(stream, 0).msg).0 !in data ==>
              r == (None, None, Some(MissingLaptop(InfoOf(RecvAt(stream, 0).msg).0)))
  {
    if !RecvAt(stream, 0).Msg? then (None, None, Some(Status(Unknown, "cannot receive image info")))
    else
      var (id, imageType) := InfoOf(RecvAt(stream, 0).msg);
      if id !in data then (None, None, Some(MissingLaptop(id)))
      else match CollectChunks(stream, ctx, 1, [])
        case Rejected(s) => (None, None, Some(s))
        case Oversized(size) => (None, None, Some(TooLarge(size)))
        case Complete(bytes) =>
          var image := SavedImage(id, imageType, bytes);
          match saveImage(image)
          case Failure(e) => (Some(image), None, Some(Status(Internal, "cannot save image to the store: " + e)))
          case Success(_) =>
            (Some(image), Some(UploadImageResponse(id, |bytes|)),
             if sendError.Some? then Some(Status(Unknown, "cannot send response: " + sendError.value)) else None)
  }

  /**
   * The image handed to the store is the info request's laptop and type with
   * exactly the bytes of the chunks that followed it. With a live context and
   * a clean stream naming a stored laptop, the image reaches the store
   * exactly when those bytes fit in `MaxImageSize`, and is otherwise refused
   * as too large.
   */
  lemma UploadImageSavesPayload(data: map<string, Laptop>, stream: seq<Recv<UploadImageRequest>>,
                                ctx: nat -> ContextState, saveImage: SavedImage -> Result<string, string>,
                                sendError: Option<string>)
    ensures var r := UploadImageOutcome(data, stream, ctx, saveImage, sendError);
            r.0.Some? ==> stream[0].Msg? &&
                          r.0.value == SavedImage(InfoOf(stream[0].msg).0, InfoOf(stream[0].msg).1, Payload(stream, 1))
    ensures var r := UploadImageOutcome(data, stream, ctx, saveImage, sendError);
            |stream| > 0 && stream[0].Msg? && InfoOf(stream[0].msg).0 in data &&
            (forall k :: 1 <= k <= |stream| ==> ctx(k) == Live) && Clean(stream, 1) ==>
              && (r.0.Some? <==> |Payload(stream, 1)| <= MaxImageSize)
              && (r.0.None? ==> r.2.value.code == InvalidArgument)
  {
    if |stream| > 0 {
      CollectChunksPayload(stream, ctx, 1, []);
      assert [] + Payload(stream, 1) == Payload(stream, 1);
    }
  }

  /** A rate-laptop request: the laptop and its score. */
  datatype RateLaptopRequest = RateLaptopRequest(laptopId: string, score: real)

  /** `RateLaptopResponse`, without the average score. */
  datatype RateLaptopResponse = RateLaptopResponse(laptopId: string, ratedCount: U32)

  /** The ratings once `req`'s score is added to its laptop's rating. */
  function Rated(ratings: map<string, Rating>, req: RateLaptopRequest): map<string, Rating>
  {
    ratings[req.laptopId := AddScore(Lookup(ratings, req.laptopId), req.score)]
  }

  /**
   * The ratings after the first n receives of `stream`: each delivered
   * request adds its score to its laptop's rating.
   */
  function RatingsAfter(ratings: map<string, Rating>, stream: seq<Recv<RateLaptopRequest>>, n: nat)
    : (r: map<string, Rating>)
    requires n <= |stream|
    ensures n > 0 && stream[n - 1].Msg? ==> stream[n - 1].msg.laptopId in r
    decreases n
  {
    if n == 0 then ratings
    else
      var prev := RatingsAfter(ratings, stream, n - 1);
      match stream[n - 1]
      case Msg(req) => Rated(prev, req)
      case _ => prev
  }

  /** The response to the request of receive k: its laptop and the rated count its score brought it to. */
  function ResponseTo(ratings: map<string, Rating>, stream: seq<Recv<RateLaptopRequest>>, k: nat): RateLaptopResponse
    requires k < |stream| && stream[k].Msg?
  {
    var id := stream[k].msg.laptopId;
    RateLaptopResponse(id, RatingsAfter(ratings, stream, k + 1)[id].count)
  }

  /** How many of the first n receives deliver a request rating `laptopId`. */
  function Occurrences(stream: seq<Recv<RateLaptopRequest>>, n: nat, laptopId: string): nat
    requires n <= |stream|
    decreases n
  {
    if n == 0 then 0
    else Occurrences(stream, n - 1, laptopId) +
         (if stream[n - 1].Msg? && stream[n - 1].msg.laptopId == laptopId then 1 else 0)
  }

  /** The sum of the scores the first n receives give `laptopId`. */
  function ScoreTotal(stream: seq<Recv<RateLaptopRequest>>, n: nat, laptopId: string): real
    requires n <= |stream|
    decreases n
  {
    if n == 0 then 0.0
    else ScoreTotal(stream, n - 1, laptopId) +
         (if stream[n - 1].Msg? && stream[n - 1].msg.laptopId == laptopId then stream[n - 1].msg.score else 0.0)
  }

  /** Incrementing a wrapped counter wraps the incremented count. */
  lemma WrapIncrement(n: nat)
    ensures (n % TwoTo32 + 1) % TwoTo32 == (n + 1) % TwoTo32
  {
    var q, r := n / TwoTo32, n % TwoTo32;
    assert n == q * TwoTo32 + r;
    if r + 1 == TwoTo32 {
      assert n + 1 == (q + 1) * TwoTo32;
    }
  }

  /**
   * Starting from an empty rating store, a laptop's rating counts the
   * requests that rated it (modulo 2^32, the width of `Count`) and sums
   * their scores; a laptop nobody rated has no rating.
   */
  lemma {:induction false} RatingsAfterCounts(stream: seq<Recv<RateLaptopRequest>>, n: nat, laptopId: string)
    requires n <= |stream|
    ensures Occurrences(stream, n, laptopId) == 0 ==>
              Lookup(RatingsAfter(map[], stream, n), laptopId) == None && ScoreTotal(stream, n, laptopId) == 0.0
    ensures Occurrences(stream, n, laptopId) > 0 ==>
              Lookup(RatingsAfter(map[], stream, n), laptopId) ==
              Some(Rating(Occurrences(stream, n, laptopId) % TwoTo32, ScoreTotal(stream, n, laptopId)))
    decreases n
  {
    if n > 0 {
      RatingsAfterCounts(stream, n - 1, laptopId);
      var count := Occurrences(stream, n - 1, laptopId);
      if stream[n - 1].Msg? && stream[n - 1].msg.laptopId == laptopId && count > 0 {
        WrapIncrement(count);
      }
    }
  }

  /**
   * Starting from an empty rating store, the response to receive k counts
   * the requests up to and including receive k that rated the same laptop
   * (modulo 2^32).
   */
  lemma ResponseCountsRatings(stream: seq<Recv<RateLaptopRequest>>, k: nat)
    requires k < |stream| && stream[k].Msg?
    ensures ResponseTo(map[], stream, k).laptopId == stream[k].msg.laptopId
    ensures ResponseTo(map[], stream, k).ratedCount == Occurrences(stream, k + 1, stream[k].msg.laptopId) % TwoTo32
  {
    RatingsAfterCounts(stream, k + 1, stream[k].msg.laptopId);
  }

  /**
   * Why `RateLaptop` stops at receive n when every earlier round went
   * through: a stopped context, EOF (no error), a receive error, or a
   * request for a laptop that is not stored.
   */
  function RateStop(data: map<string, Laptop>, stream: seq<Recv<RateLaptopRequest>>, ctx: nat -> ContextState, n: nat)
    : (err: Option<Status>)
    ensures err.None? <==> ctx(n) == Live && RecvAt(stream, n).EOF?
    ensures ctx(n) != Live ==> err == ContextError(ctx(n))
  {
    if ctx(n) != Live then ContextError(ctx(n))
    else match RecvAt(stream, n)
      case EOF => None
      case RecvError(e) => Some(Status(Unknown, "cannot receive stream request: " + e))
      case Msg(req) => Some(MissingLaptop(req.laptopId))
  }

  /** What a run of `RateLaptop` leaves: the responses handed to `Send`, the returned error and the ratings. */
  datatype RateRun = RateRun(responses: seq<RateLaptopResponse>, err: Option<Status>, ratings: map<string, Rating>)

  /**
   * The run of `RateLaptop` from receive i on, the ratings being `ratings`
   * before it and every earlier round having gone through.
   */
  function RateFrom(ratings: map<string, Rating>, data: map<string, Laptop>, stream: seq<Recv<RateLaptopRequest>>,
                    ctx: nat -> ContextState, send: nat -> Option<string>, i: nat): RateRun
    requires i <= |stream|
    decreases |stream| - i
  {
    if i == |stream| || ctx(i) != Live || !stream[i].Msg? || stream[i].msg.laptopId !in data then
      RateRun([], RateStop(data, stream, ctx, i), ratings)
    else
      var req := stream[i].msg;
      var next := Rated(ratings, req);
      var response := RateLaptopResponse(req.laptopId, next[req.laptopId].count);
      if send(i).Some? then RateRun([response], Some(Status(Unknown, "cannot send stream response: " + send(i).value)), next)
      else
        var rest := RateFrom(next, data, stream, ctx, send, i + 1);
        rest.(responses := [response] + rest.responses)
  }

  /**
   * A round that goes through and whose send succeeds: the ratings before
   * the next round are `RatingsAfter` one more receive, and the response is
   * `ResponseTo` this receive.
   */
  lemma RateFromStep(start: map<string, Rating>, data: map<string, Laptop>, stream: seq<Recv<RateLaptopRequest>>,
                     ctx: nat -> ContextState, send: nat -> Option<string>, i: nat)
    requires i < |stream| && ctx(i) == Live && stream[i].Msg? && stream[i].msg.laptopId in data && send(i).None?
    ensures var rest := RateFrom(RatingsAfter(start, stream, i + 1), data, stream, ctx, send, i + 1);
            RateFrom(RatingsAfter(start, stream, i), data, stream, ctx, send, i) == rest.(responses := [ResponseTo(start, stream, i)] + rest.responses)
  {
    assert RatingsAfter(start, stream, i + 1) == Rated(RatingsAfter(start, stream, i), stream[i].msg);
  }

  /**
   * `RateLaptop` handles at most one request per receive, and the ratings
   * end as `RatingsAfter` the handled requests.
   */
  lemma {:induction false} RateFromRatesHandledRequests(start: map<string, Rating>, data: map<string, Laptop>,
                                                      stream: seq<Recv<RateLaptopRequest>>, ctx: nat -> ContextState,
                                                      send: nat -> Option<string>, i: nat)
    requires i <= |stream|
    ensures var run := RateFrom(RatingsAfter(start, stream, i), data, stream, ctx, send, i);
            i + |run.responses| <= |stream| && run.ratings == RatingsAfter(start, stream, i + |run.responses|)
    decreases |stream| - i
  {
    if i < |stream| && ctx(i) == Live && stream[i].Msg? && stream[i].msg.laptopId in data {
      if send(i).None? {
        RateFromStep(start, data, stream, ctx, send, i);
        RateFromRatesHandledRequests(start, data, stream, ctx, send, i + 1);
      } else {
        assert RatingsAfter(start, stream, i + 1) == Rated(RatingsAfter(start, stream, i), stream[i].msg);
      }
    }
  }

  /** Response k - i of the run from receive i answers receive k. */
  lemma {:induction false} RateFromAnswers(start: map<string, Rating>, data: map<string, Laptop>,
                                           stream: seq<Recv<RateLaptopRequest>>, ctx: nat -> ContextState,
                                           send: nat -> Option<string>, i: nat, k: nat)
    requires i <= |stream| && i <= k < i + |RateFrom(RatingsAfter(start, stream, i), data, stream, ctx, send, i).responses|
    ensures k < |stream| && ctx(k) == Live && stream[k].Msg? && stream[k].msg.laptopId in data
    ensures RateFrom(RatingsAfter(start, stream, i), data, stream, ctx, send, i).responses[k - i] == ResponseTo(start, stream, k)
    decreases k - i
  {
    var run := RateFrom(RatingsAfter(start, stream, i), data, stream, ctx, send, i);
    if send(i).Some? {
      assert RatingsAfter(start, stream, i + 1) == Rated(RatingsAfter(start, stream, i), stream[i].msg);
    } else {
      RateFromStep(start, data, stream, ctx, send, i);
      if k > i {
        RateFromAnswers(start, data, stream, ctx, send, i + 1, k);
      }
    }
  }

  /**
   * `RateLaptop` answers each handled request once, in order: the response
   * of round k went to a live, delivered request for a stored laptop and is
   * `ResponseTo` k.
   */
  lemma RateFromAnswersEachRequest(start: map<string, Rating>, data: map<string, Laptop>,
                                   stream: seq<Recv<RateLaptopRequest>>, ctx: nat -> ContextState,
                                   send: nat -> Option<string>)
    ensures var run := RateFrom(start, data, stream, ctx, send, 0);
            forall k :: 0 <= k < |run.responses| ==>
              && k < |stream| && ctx(k) == Live && stream[k].Msg? && stream[k].msg.laptopId in data
              && run.responses[k] == ResponseTo(start, stream, k)
  {
    var run := RateFrom(start, data, stream, ctx, send, 0);
    assert RatingsAfter(start, stream, 0) == start;
    forall k | 0 <= k < |run.responses|
      ensures k < |stream| && ctx(k) == Live && stream[k].Msg? && stream[k].msg.laptopId in data
      ensures run.responses[k] == ResponseTo(start, stream, k)
    {
      RateFromAnswers(start, data, stream, ctx, send, 0, k);
    }
  }

  /** Every send of a run but its last went through. */
  lemma {:induction false} RateFromSendsBeforeLast(ratings: map<string, Rating>, data: map<string, Laptop>,
                                                   stream: seq<Recv<RateLaptopRequest>>, ctx: nat -> ContextState,
                                                   send: nat -> Option<string>, i: nat, k: nat)
    requires i <= |stream| && i <= k < i + |RateFrom(ratings, data, stream, ctx, send, i).responses| - 1
    ensures send(k).None?
    decreases k - i
  {
    if k > i {
      RateFromSendsBeforeLast(Rated(ratings, stream[i].msg), data, stream, ctx, send, i + 1, k);
    }
  }

  /** A run whose last send failed ends with Unknown, wrapping the send's error. */
  lemma {:induction false} RateFromEndsOnFailedSend(ratings: map<string, Rating>, data: map<string, Laptop>,
                                                    stream: seq<Recv<RateLaptopRequest>>, ctx: nat -> ContextState,
                                                    send: nat -> Option<string>, i: nat)
    requires i <= |stream|
    ensures var n := |RateFrom(ratings, data, stream, ctx, send, i).responses|;
            n > 0 && send(i + n - 1).Some? ==>
              RateFrom(ratings, data, stream, ctx, send, i).err == Some(Status(Unknown, "cannot send stream response: " + send(i + n - 1).value))
    decreases |stream| - i
  {
    if i < |stream| && ctx(i) == Live && stream[i].Msg? && stream[i].msg.laptopId in data && send(i).None? {
      var next := Rated(ratings, stream[i].msg);
      RateFromEndsOnFailedSend(next, data, stream, ctx, send, i + 1);
      var rest := RateFrom(next, data, stream, ctx, send, i + 1);
      assert RateFrom(ratings, data, stream, ctx, send, i).err == rest.err && |RateFrom(ratings, data, stream, ctx, send, i).responses| == 1 + |rest.responses|;
      assert i + |RateFrom(ratings, data, stream, ctx, send, i).responses| == (i + 1) + |rest.responses|;
    }
  }

  /**
   * A run whose sends all went through ends as `RateStop` says at the
   * first round that did not go through.
   */
  lemma {:induction false} RateFromEndsAtStop(ratings: map<string, Rating>, data: map<string, Laptop>,
                                              stream: seq<Recv<RateLaptopRequest>>, ctx: nat -> ContextState,
                                              send: nat -> Option<string>, i: nat)
    requires i <= |stream|
    ensures var n := |RateFrom(ratings, data, stream, ctx, send, i).responses|;
            (n == 0 || send(i + n - 1).None?) ==> RateFrom(ratings, data, stream, ctx, send, i).err == RateStop(data, stream, ctx, i + n)
    decreases |stream| - i
  {
    if i < |stream| && ctx(i) == Live && stream[i].Msg? && stream[i].msg.laptopId in data && send(i).None? {
      var next := Rated(ratings, stream[i].msg);
      RateFromEndsAtStop(next, data, stream, ctx, send, i + 1);
      var rest := RateFrom(next, data, stream, ctx, send, i + 1);
      assert RateFrom(ratings, data, stream, ctx, send, i).err == rest.err && |RateFrom(ratings, data, stream, ctx, send, i).responses| == 1 + |rest.responses|;
      assert i + |RateFrom(ratings, data, stream, ctx, send, i).responses| == (i + 1) + |rest.responses|;
    }
  }

  /** A class of its own so that the handlers share the two stores, as the server struct does. */
  class LaptopServer {
    const laptopStore: InMemoryLaptopStore
    const ratingStore: InMemoryRatingStore

    /** `NewLaptopServer`. */
    constructor (laptopStore: InMemoryLaptopStore, ratingStore: InMemoryRatingStore)
      ensures this.laptopStore == laptopStore && this.ratingStore == ratingStore
    {
      this.laptopStore := laptopStore;
      this.ratingStore := ratingStore;
    }

    /**
     * `CreateLaptop`: settle the id, give up if the context has stopped,
     * otherwise store the laptop under that id and reply with it.
     */
    method CreateLaptop(laptop: Laptop, ctx: ContextState, parseError: string -> Option<string>,
                        newId: Result<string, string>)
      returns (r: Result<string, Status>)
      requires laptopStore.Valid()
      modifies laptopStore
      ensures laptopStore.Valid()
      ensures var settled := AssignId(laptop.id, parseError, newId);
              && (settled.Failure? ==> r == settled && laptopStore.data == old(laptopStore.data))
              && (settled.Success? && ctx != Live ==>
                    r == Failure(ContextError(ctx).value) && laptopStore.data == old(laptopStore.data))
              && (settled.Success? && ctx == Live ==>
                    r == settled && laptopStore.data == old(laptopStore.data)[settled.value := laptop.(id := settled.value)])
    {
      var settled := AssignId(laptop.id, parseError, newId);
      if settled.Failure? {
        return settled;
      }
      var stored := laptop.(id := settled.value);
      var stopped := ContextError(ctx);
      if stopped.Some? {
        return Failure(stopped.value);
      }
      var err := laptopStore.Save(stored);
      return Success(stored.id);
    }

    /**
     * `SearchLaptop`: runs the store's search with a callback that sends each
     * found laptop (`send(j)` is the error of the j-th send), and turns a
     * failed send into Internal.
     */
    method SearchLaptop(filter: Filter, ctx: nat -> ContextState, order: seq<string>, send: nat -> Option<string>)
      returns (sent: seq<Laptop>, err: Option<Status>)
      requires Distinct(order) && (forall id :: id in laptopStore.data <==> id in order)
      ensures AllIn(laptopStore.data, order)
      ensures var (reported, failure) := SearchOutcome(laptopStore.data, order, filter, ctx, send);
              && sent == reported
              && (failure.None? ==> err == None)
              && (failure.Some? ==> err == Some(Status(Internal, "unexpected error: " + failure.value)))
    {
      var failure;
      sent, failure := laptopStore.Search(ctx, filter, order, send);
      if failure.Some? {
        return sent, Some(Status(Internal, "unexpected error: " + failure.value));
      }
      return sent, None;
    }

    /** `GetLaptopByID`: the stored laptop, or NotFound with the handler's own message. */
    method GetLaptopById(id: string) returns (r: Result<Laptop, Status>)
      ensures id in laptopStore.data ==> r == Success(laptopStore.data[id])
      ensures id !in laptopStore.data ==> r == Failure(Status(NotFound, "Laptop with ID: " + id + " not Ffound."))
    {
      var found := laptopStore.Find(id);
      if found.Failure? {
        return Failure(Status(NotFound, "Laptop with ID: " + id + " not Ffound."));
      }
      return found;
    }

    /** The chunk loop of `UploadImage`, from the second receive on. */
    method ReceiveChunks(stream: seq<Recv<UploadImageRequest>>, ctx: nat -> ContextState) returns (r: Chunks)
      requires |stream| > 0
      ensures r == CollectChunks(stream, ctx, 1, [])
    {
      var imageData: seq<bv8> := [];
      var imageSize := 0;
      var i := 1;
      while true
        invariant 1 <= i <= |stream|
        invariant imageSize == |imageData| <= MaxImageSize
        invariant CollectChunks(stream, ctx, i, imageData) == CollectChunks(stream, ctx, 1, [])
        decreases |stream| - i
      {
        var stopped := ContextError(ctx(i));
        if stopped.Some? {
          return Rejected(stopped.value);
        }
        var req := RecvAt(stream, i);
        if req.EOF? {
          break;
        }
        if req.RecvError? {
          return Rejected(Status(Unknown, "cannot receive chunk data: " + req.reason));
        }
        var chunk := ChunkOf(req.msg);
        imageSize := imageSize + |chunk|;
        if imageSize > MaxImageSize {
          return Oversized(imageSize);
        }
        imageData := imageData + chunk;
        i := i + 1;
      }
      return Complete(imageData);
    }

    /**
     * `UploadImage`: the first request names the laptop and image type; the
     * laptop must be stored; then chunks are received until EOF, the image
     * is saved and the response sent (`sendError` is the error of
     * `SendAndClose`). Returns what went to the image store, what went to
     * `SendAndClose`, and the handler's error.
     */
    method UploadImage(stream: seq<Recv<UploadImageRequest>>, ctx: nat -> ContextState,
                       saveImage: SavedImage -> Result<string, string>, sendError: Option<string>)
      returns (saved: Option<SavedImage>, response: Option<UploadImageResponse>, err: Option<Status>)
      ensures (saved, response, err) == UploadImageOutcome(laptopStore.data, stream, ctx, saveImage, sendError)
    {
      saved, response := None, None;
      var first := RecvAt(stream, 0);
      if !first.Msg? {
        return saved, response, Some(Status(Unknown, "cannot receive image info"));
      }
      var (laptopId, imageType) := InfoOf(first.msg);
      var found := laptopStore.Find(laptopId);
      if found.Failure? {
        return saved, response, Some(Status(Internal, "cannot find laptop: " + ErrorText(found.error)));
      }
      var chunks := ReceiveChunks(stream, ctx);
      if chunks.Rejected? {
        return saved, response, Some(chunks.status);
      }
      if chunks.Oversized? {
        return saved, response, Some(TooLarge(chunks.size));
      }
      var imageData := chunks.data;
      var imageSize := |imageData|;
      saved := Some(SavedImage(laptopId, imageType, imageData));
      var imageId := saveImage(saved.value);
      if imageId.Failure? {
        return saved, response, Some(Status(Internal, "cannot save image to the store: " + imageId.error));
      }
      response := Some(UploadImageResponse(laptopId, imageSize));
      if sendError.Some? {
        return saved, response, Some(Status(Unknown, "cannot send response: " + sendError.value));
      }
      return saved, response, None;
    }

    /** The part of a `RateLaptop` round after a request arrives: look the laptop up, add the score, build the response. */
    method RateReceived(req: RateLaptopRequest) returns (r: Result<RateLaptopResponse, Status>)
      modifies ratingStore
      ensures req.laptopId !in laptopStore.data ==>
                r == Failure(MissingLaptop(req.laptopId)) && ratingStore.rating == old(ratingStore.rating)
      ensures req.laptopId in laptopStore.data ==>
                var rating := AddScore(Lookup(old(ratingStore.rating), req.laptopId), req.score);
                r == Success(RateLaptopResponse(req.laptopId, rating.count)) &&
                ratingStore.rating == old(ratingStore.rating)[req.laptopId := rating]
    {
      var found := laptopStore.Find(req.laptopId);
      if found.Failure? {
        return Failure(Status(Internal, "cannot find laptop: " + ErrorText(found.error)));
      }
      var rating, _ := ratingStore.Add(req.laptopId, req.score);
      return Success(RateLaptopResponse(req.laptopId, rating.count));
    }

    /**
     * One round of `RateLaptop` at receive i: the response to send, with the
     * score added to the ratings, or why the loop stops (None at EOF), with
     * the ratings unchanged.
     */
    method RateRound(stream: seq<Recv<RateLaptopRequest>>, ctx: nat -> ContextState, i: nat)
      returns (r: Result<RateLaptopResponse, Option<Status>>)
      modifies ratingStore
      ensures r.Success? ==> i < |stream| && ctx(i) == Live && stream[i].Msg? && stream[i].msg.laptopId in laptopStore.data
      ensures r.Success? ==> ratingStore.rating == Rated(old(ratingStore.rating), stream[i].msg)
      ensures r.Success? ==> r.value == RateLaptopResponse(stream[i].msg.laptopId, ratingStore.rating[stream[i].msg.laptopId].count)
      ensures r.Failure? ==> r.error == RateStop(laptopStore.data, stream, ctx, i) && ratingStore.rating == old(ratingStore.rating)
      ensures r.Failure? && ctx(i) == Live && RecvAt(stream, i).Msg? ==> RecvAt(stream, i).msg.laptopId !in laptopStore.data
    {
      var stop := ContextError(ctx(i));
      if stop.Some? {
        return Failure(stop);
      }
      var req := RecvAt(stream, i);
      if req.EOF? {
        return Failure(None);
      }
      if req.RecvError? {
        return Failure(Some(Status(Unknown, "cannot receive stream request: " + req.reason)));
      }
      var rated := RateReceived(req.msg);
      if rated.Failure? {
        return Failure(Some(rated.error));
      }
      return Success(rated.value);
    }

    /**
     * One round of `RateLaptop` followed by its send: the response handed to
     * `Send`, if any, and whether the loop stops here and with what error.
     * It takes `RateFrom`'s first step from round i.
     */
    method RateAndSend(stream: seq<Recv<RateLaptopRequest>>, ctx: nat -> ContextState, send: nat -> Option<string>, i: nat)
      returns (response: Option<RateLaptopResponse>, stop: bool, err: Option<Status>)
      requires i <= |stream|
      modifies ratingStore
      ensures stop ==> RateFrom(old(ratingStore.rating), laptopStore.data, stream, ctx, send, i)
                       == RateRun(if response.Some? then [response.value] else [], err, ratingStore.rating)
      ensures !stop ==> response.Some? && i < |stream| &&
                        var rest := RateFrom(ratingStore.rating, laptopStore.data, stream, ctx, send, i + 1);
                        RateFrom(old(ratingStore.rating), laptopStore.data, stream, ctx, send, i)
                        == rest.(responses := [response.value] + rest.responses)
    {
      var round := RateRound(stream, ctx, i);
      if round.Failure? {
        return None, true, round.error;
      }
      var sendError := send(i);
      if sendError.Some? {
        return Some(round.value), true, Some(Status(Unknown, "cannot send stream response: " + sendError.value));
      }
      return Some(round.value), false, None;
    }

    /**
     * `RateLaptop`: until EOF, check the context, receive a request, make
     * sure the laptop is stored, add the score and send back the laptop's
     * rated count (`send(k)` is the error of the k-th send). Returns the
     * responses handed to `Send`.
     */
    method RateLaptop(stream: seq<Recv<RateLaptopRequest>>, ctx: nat -> ContextState, send: nat -> Option<string>)
      returns (responses: seq<RateLaptopResponse>, err: Option<Status>)
      modifies ratingStore
      ensures RateRun(responses, err, ratingStore.rating)
              == RateFrom(old(ratingStore.rating), laptopStore.data, stream, ctx, send, 0)
    {
      responses := [];
      ghost var data := laptopStore.data;
      ghost var outcome := RateFrom(ratingStore.rating, data, stream, ctx, send, 0);
      var i := 0;
      while true
        invariant i <= |stream|
        invariant var rest := RateFrom(ratingStore.rating, data, stream, ctx, send, i);
                  outcome == rest.(responses := responses + rest.responses)
        decreases |stream| - i
      {
        var response, stop, e := RateAndSend(stream, ctx, send, i);
        if response.Some? {
          responses := responses + [response.value];
        }
        if stop {
          err := e;
          break;
        }
        i := i + 1;
      }
    }
  }
}
