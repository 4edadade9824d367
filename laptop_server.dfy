/** LaptopServer: the CreateLaptop, SearchLaptop, UploadImage and RateLaptop
    handlers over the laptop store, the image store and the rating store.
    Every collaborator outside the model is an argument: the context's error at
    each check, uuid.Parse as a predicate, the outcome of uuid.NewRandom, the
    faults of the laptop store's implementation, the image store's reply and
    the failures of sending on the stream. */
module LaptopService {
  import opened Base
  import opened Pb
  import opened Streams
  import opened LaptopRepository
  import opened RatingRepository

  /** The largest image UploadImage accepts: 1 << 20 bytes. */
  const MAX_IMAGE_SIZE: nat := 0x10_0000

  // ---------------------------------------------------------------- CreateLaptop

  /** The ID a new laptop is saved under: a non-empty ID must parse as a UUID
      (InvalidArgument otherwise); an empty one is replaced by a freshly
      generated UUID (Internal if generation fails). */
  function ChooseId(id: string, isUuid: string -> bool, generated: Result<string>): (r: Result<string>)
    ensures r.Success? <==> (if id != "" then isUuid(id) else generated.Success?)
    ensures r.Success? ==> r.value == (if id != "" then id else generated.value)
    ensures r.Failure? ==> r.error == Status(if id != "" then InvalidArgument else Internal)
  {
    if |id| > 0 then
      if isUuid(id) then Success(id) else Failure(Status(InvalidArgument))
    else
      match generated
      case Failure(_) => Failure(Status(Internal))
      case Success(newId) => Success(newId)
  }

  /** The status code of a failed save: AlreadyExists when the error is or
      wraps ErrAlreadyExists, Internal for every other error. */
  function SaveErrorCode(err: Error): (c: Code)
    ensures c == AlreadyExists <==> Is(err, ErrAlreadyExists)
    ensures c != AlreadyExists ==> c == Internal
  {
    if Is(err, ErrAlreadyExists) then AlreadyExists else Internal
  }

  /** The reply of CreateLaptop to a laptop with ID `id` when the store holds
      `laptops`: the saved ID, or the error. */
  function CreateOutcome(id: string, isUuid: string -> bool, generated: Result<string>,
                         ctxErr: Option<Error>, saveFault: Option<Error>,
                         laptops: map<string, LaptopRecord>): (r: Result<string>)
    ensures r.Success? ==> ChooseId(id, isUuid, generated) == Success(r.value) && r.value !in laptops
    ensures r.Success? <==> ChooseId(id, isUuid, generated).Success? && ctxErr.None? && saveFault.None? &&
                            ChooseId(id, isUuid, generated).value !in laptops
    ensures id == "" && generated.Failure? ==> r == Failure(Status(Internal))
    ensures ChooseId(id, isUuid, generated).Success? && ctxErr.Some? ==> r == Failure(ctxErr.value)
    ensures ChooseId(id, isUuid, generated).Success? && ctxErr.None? && saveFault.Some? ==>
      r == Failure(Status(SaveErrorCode(saveFault.value)))
  {
    match ChooseId(id, isUuid, generated)
    case Failure(e) => Failure(e)
    case Success(chosen) =>
      if ctxErr.Some? then Failure(ctxErr.value)
      else if saveFault.Some? then Failure(Status(SaveErrorCode(saveFault.value)))
      else if chosen in laptops then Failure(Status(SaveErrorCode(ErrAlreadyExists)))
      else Success(chosen)
  }

  /** What a handler call ends in: a reply (a response or an error status),
      or a panic. When served over gRPC, no interceptor of the server recovers
      a panic, so the server process ends with it; over REST, net/http
      recovers it and only that request fails. */
  datatype Handled<T> = Replied(reply: Result<T>) | Panicked

  /** CreateLaptop as written, on the request's laptop: `Some(id)` for a
      laptop whose ID is `id`, `None` for a request without a laptop. The ID
      of a missing laptop reads as empty, so one is generated: a failed
      generation is Internal, and a successful one is assigned through the
      missing laptop, which panics, whatever the context and the store. */
  function CreateAsWritten(laptop: Option<string>, isUuid: string -> bool, generated: Result<string>,
                           ctxErr: Option<Error>, saveFault: Option<Error>,
                           laptops: map<string, LaptopRecord>): (h: Handled<string>)
    ensures laptop.Some? ==> h == Replied(CreateOutcome(laptop.value, isUuid, generated, ctxErr, saveFault, laptops))
    ensures h == Panicked <==> laptop.None? && generated.Success?
    ensures laptop.None? && generated.Failure? ==> h == Replied(Failure(Status(Internal)))
  {
    match laptop
    case Some(id) => Replied(CreateOutcome(id, isUuid, generated, ctxErr, saveFault, laptops))
    case None => if generated.Failure? then Replied(Failure(Status(Internal))) else Panicked
  }

  /** The request that crashes the server: no laptop, and an ID generated
      without error. The context being already cancelled does not help, as
      the panic comes before the context is checked. */
  lemma MissingLaptopPanics(isUuid: string -> bool, newId: string, ctxErr: Option<Error>,
                            saveFault: Option<Error>, laptops: map<string, LaptopRecord>)
    ensures CreateAsWritten(None, isUuid, Success(newId), ctxErr, saveFault, laptops) == Panicked
  {
  }

  /** CreateLaptop as evidently intended: a request without a laptop is
      refused with InvalidArgument before any ID is generated; a request with
      one is answered exactly as written. Every request gets a reply. */
  function CreateChecked(laptop: Option<string>, isUuid: string -> bool, generated: Result<string>,
                         ctxErr: Option<Error>, saveFault: Option<Error>,
                         laptops: map<string, LaptopRecord>): (r: Result<string>)
    ensures laptop.None? ==> r == Failure(Status(InvalidArgument))
    ensures laptop.Some? ==> Replied(r) == CreateAsWritten(laptop, isUuid, generated, ctxErr, saveFault, laptops)
    ensures CreateAsWritten(laptop, isUuid, generated, ctxErr, saveFault, laptops) != Panicked && r.Success? ==>
      CreateAsWritten(laptop, isUuid, generated, ctxErr, saveFault, laptops) == Replied(r)
  {
    match laptop
    case None => Failure(Status(InvalidArgument))
    case Some(id) => CreateOutcome(id, isUuid, generated, ctxErr, saveFault, laptops)
  }

  /** Every stored laptop sits under its own ID, and that ID is a UUID. */
  ghost predicate WellFormedStore(laptops: map<string, LaptopRecord>, isUuid: string -> bool)
  {
    forall id :: id in laptops ==> laptops[id].id == id && isUuid(id)
  }

  /** A malformed non-empty ID is refused with InvalidArgument, whatever the
      context and the store. */
  lemma MalformedIdRefused(id: string, isUuid: string -> bool, generated: Result<string>,
                           ctxErr: Option<Error>, saveFault: Option<Error>, laptops: map<string, LaptopRecord>)
    requires id != "" && !isUuid(id)
    ensures CreateOutcome(id, isUuid, generated, ctxErr, saveFault, laptops) == Failure(Status(InvalidArgument))
  {
  }

  /** A save under an ID already taken is refused with AlreadyExists, and a
      cancelled context is reported as it is; in both cases nothing is saved. */
  lemma CreateConflictsAndCancellation(id: string, isUuid: string -> bool, generated: Result<string>,
                                       ctxErr: Option<Error>, saveFault: Option<Error>, laptops: map<string, LaptopRecord>)
    requires ChooseId(id, isUuid, generated).Success?
    ensures ctxErr.Some? ==> CreateOutcome(id, isUuid, generated, ctxErr, saveFault, laptops) == Failure(ctxErr.value)
    ensures ctxErr.None? && saveFault.None? && ChooseId(id, isUuid, generated).value in laptops ==>
      CreateOutcome(id, isUuid, generated, ctxErr, saveFault, laptops) == Failure(Status(AlreadyExists))
  {
  }

  /** CreateLaptop keeps the store well formed, provided generated IDs are
      UUIDs (uuid.NewRandom().String() parses). */
  lemma CreatePreservesWellFormed(id: string, isUuid: string -> bool, generated: Result<string>,
                                  ctxErr: Option<Error>, saveFault: Option<Error>,
                                  laptops: map<string, LaptopRecord>, specs: Specs)
    requires WellFormedStore(laptops, isUuid)
    requires generated.Success? ==> isUuid(generated.value)
    ensures var r := CreateOutcome(id, isUuid, generated, ctxErr, saveFault, laptops);
      WellFormedStore(if r.Success? then laptops[r.value := LaptopRecord(r.value, specs)] else laptops, isUuid)
  {
  }

  /** The corrected CreateLaptop keeps the store well formed too, and a
      request without a laptop leaves it as it was. */
  lemma CheckedPreservesWellFormed(laptop: Option<string>, isUuid: string -> bool, generated: Result<string>,
                                   ctxErr: Option<Error>, saveFault: Option<Error>,
                                   laptops: map<string, LaptopRecord>, specs: Specs)
    requires WellFormedStore(laptops, isUuid)
    requires generated.Success? ==> isUuid(generated.value)
    ensures var r := CreateChecked(laptop, isUuid, generated, ctxErr, saveFault, laptops);
      (laptop.None? ==> r.Failure?) &&
      WellFormedStore(if r.Success? then laptops[r.value := LaptopRecord(r.value, specs)] else laptops, isUuid)
  {
    if laptop.Some? {
      CreatePreservesWellFormed(laptop.value, isUuid, generated, ctxErr, saveFault, laptops, specs);
    }
  }

  // ---------------------------------------------------------------- SearchLaptop

  /** SearchLaptop: the store's search, which sends each match on the stream,
      either completes and the call succeeds, or fails and the call fails with
      Internal, whatever the store or the stream reported. */
  function SearchLaptop(searchErr: Option<Error>): (r: Option<Error>)
    ensures r.None? <==> searchErr.None?
    ensures r.Some? ==> r.value == Status(Internal)
  {
    if searchErr.Some? then Some(Status(Internal)) else None
  }

  // ---------------------------------------------------------------- UploadImage

  /** The laptop and image type an upload is for, from its first message. A
      failed first receive (io.EOF included) is Unknown, a fault of the store
      Internal, an unknown laptop NotFound. */
  function ImageInfo(first: Input<UploadImageRequest>, laptops: map<string, LaptopRecord>,
                     findFault: Option<Error>): (r: Result<(string, string)>)
    ensures r.Success? ==> first.Message? && findFault.None? && r.value.0 == first.msg.GetLaptopId() && r.value.0 in laptops
    ensures first.Message? && findFault.None? && first.msg.GetLaptopId() !in laptops ==> r == Failure(Status(NotFound))
    ensures first.Message? && findFault.Some? ==> r == Failure(Status(Internal))
    ensures !first.Message? ==> r == Failure(Status(Unknown))
    ensures first.Message? && findFault.None? && first.msg.GetLaptopId() in laptops ==>
      r == Success((first.msg.GetLaptopId(), first.msg.GetImageType()))
  {
    match first
    case EndOfStream => Failure(Status(Unknown))
    case Broken(_) => Failure(Status(Unknown))
    case Message(info) =>
      if findFault.Some? then Failure(Status(Internal))
      else if info.GetLaptopId() !in laptops then Failure(Status(NotFound))
      else Success((info.GetLaptopId(), info.GetImageType()))
  }

  /** The chunk payloads of the first `n` turns, which all carry a message. */
  function Chunks(ticks: seq<Tick<UploadImageRequest>>, n: nat): (cs: seq<seq<byte>>)
    requires n <= |ticks|
    requires forall j :: 0 <= j < n ==> ticks[j].input.Message?
    ensures |cs| == n
  {
    seq(n, j requires 0 <= j < n => ticks[j].input.msg.GetChunkData())
  }

  /** The bytes of the chunks, in order: what `imageData` accumulates. */
  function Concat(cs: seq<seq<byte>>): seq<byte>
  {
    if cs == [] then [] else Concat(cs[..|cs| - 1]) + cs[|cs| - 1]
  }

  /** The sum of the chunks' lengths: what `imageSize` accumulates. */
  function SizeOf(cs: seq<seq<byte>>): nat
  {
    if cs == [] then 0 else SizeOf(cs[..|cs| - 1]) + |cs[|cs| - 1]|
  }

  /** The bytes collected are exactly as many as the chunk lengths add up to. */
  lemma {:induction false} ConcatLength(cs: seq<seq<byte>>)
    ensures |Concat(cs)| == SizeOf(cs)
  {
    if cs != [] {
      ConcatLength(cs[..|cs| - 1]);
    }
  }

  /** The size received never decreases as chunks arrive. */
  lemma {:induction false} SizeOfPrefix(cs: seq<seq<byte>>, k: nat)
    requires k <= |cs|
    ensures SizeOf(cs[..k]) <= SizeOf(cs)
  {
    if k < |cs| {
      assert cs[..|cs| - 1][..k] == cs[..k];
      SizeOfPrefix(cs[..|cs| - 1], k);
    } else {
      assert cs[..k] == cs;
    }
  }

  /** How UploadImage's receive loop ends. */
  datatype Received = Complete(data: seq<byte>) | Aborted(error: Error)

  /** The receive loop: chunks are collected while the context is live and
      messages arrive; a total above MAX_IMAGE_SIZE aborts with
      InvalidArgument at the chunk that crosses it; otherwise the first stop
      decides: a cancelled context is reported as it is, a broken receive is
      Unknown, and io.EOF completes the image. */
  function ReceiveImage(ticks: seq<Tick<UploadImageRequest>>): (r: Received)
    ensures var t := TickAt(ticks, Delivered(ticks));
      r.Complete? <==> SizeOf(Chunks(ticks, Delivered(ticks))) <= MAX_IMAGE_SIZE &&
                       t.ctxErr.None? && t.input.EndOfStream?
    ensures var t := TickAt(ticks, Delivered(ticks));
      SizeOf(Chunks(ticks, Delivered(ticks))) <= MAX_IMAGE_SIZE && t.ctxErr.Some? ==> r == Aborted(t.ctxErr.value)
    ensures var t := TickAt(ticks, Delivered(ticks));
      SizeOf(Chunks(ticks, Delivered(ticks))) <= MAX_IMAGE_SIZE && t.ctxErr.None? && t.input.Broken? ==>
        r == Aborted(Status(Unknown))
  {
    var n := Delivered(ticks);
    var cs := Chunks(ticks, n);
    if SizeOf(cs) > MAX_IMAGE_SIZE then Aborted(Status(InvalidArgument))
    else
      var t := TickAt(ticks, n);
      if t.ctxErr.Some? then Aborted(t.ctxErr.value)
      else if t.input.Broken? then Aborted(Status(Unknown))
      else Complete(Concat(cs))
  }

  /** A completed image is every delivered chunk, in order, its size is the
      sum of their lengths, and it never exceeds MAX_IMAGE_SIZE; a larger
      total is always refused with InvalidArgument. */
  lemma ReceivedImageBounded(ticks: seq<Tick<UploadImageRequest>>)
    ensures var cs := Chunks(ticks, Delivered(ticks));
      (SizeOf(cs) > MAX_IMAGE_SIZE ==> ReceiveImage(ticks) == Aborted(Status(InvalidArgument))) &&
      (ReceiveImage(ticks).Complete? ==>
         ReceiveImage(ticks).data == Concat(cs) &&
         |ReceiveImage(ticks).data| == SizeOf(cs) <= MAX_IMAGE_SIZE)
  {
    ConcatLength(Chunks(ticks, Delivered(ticks)));
  }

  /** The reply UploadImage sends for a completed image: the image store's
      failure is Internal, a failed SendAndClose Unknown, and otherwise the
      image ID with the size as uint32. */
  function UploadReply(data: seq<byte>, sinkReply: Result<string>, closeFault: Option<Error>): (r: Result<UploadImageResponse>)
    ensures r.Success? <==> sinkReply.Success? && closeFault.None?
    ensures r.Success? ==> r.value.id == sinkReply.value
    ensures r.Success? && |data| <= MAX_IMAGE_SIZE ==> r.value.size == |data|
    ensures sinkReply.Failure? ==> r == Failure(Status(Internal))
    ensures sinkReply.Success? && closeFault.Some? ==> r == Failure(Status(Unknown))
  {
    if sinkReply.Failure? then Failure(Status(Internal))
    else if closeFault.Some? then Failure(Status(Unknown))
    else Success(UploadImageResponse(sinkReply.value, Uint32(|data|)))
  }

  /** A turn that does not deliver, reached through delivering turns only,
      is the loop's first stop. */
  lemma StopsAt<M>(ticks: seq<Tick<M>>, i: nat)
    requires i <= Delivered(ticks) && !Delivers(TickAt(ticks, i))
    ensures i == Delivered(ticks)
  {
  }

  /** UploadImage's receive loop: collect the chunks while the context is
      live and messages arrive, tracking the size and aborting as soon as it
      passes MAX_IMAGE_SIZE; at the first stop, a cancelled context is
      reported, a broken receive is Unknown, and io.EOF completes the image. */
  method ReceiveChunks(ticks: seq<Tick<UploadImageRequest>>) returns (received: Received)
    ensures received == ReceiveImage(ticks)
  {
    var imageData: seq<byte> := [];
    var imageSize: nat := 0;
    var i: nat := 0;
    while Delivers(TickAt(ticks, i))
      invariant i <= Delivered(ticks)
      invariant imageData == Concat(Chunks(ticks, i))
      invariant imageSize == |imageData| <= MAX_IMAGE_SIZE
      decreases |ticks| - i
    {
      var chunk := TickAt(ticks, i).input.msg.GetChunkData();
      ChunksStep(ticks, i);
      ConcatLength(Chunks(ticks, i));
      ConcatLength(Chunks(ticks, i + 1));
      imageSize := imageSize + |chunk|;
      if imageSize > MAX_IMAGE_SIZE {
        ChunksPrefix(ticks, i + 1);
        SizeOfPrefix(Chunks(ticks, Delivered(ticks)), i + 1);
        return Aborted(Status(InvalidArgument));
      }
      imageData := imageData + chunk;
      i := i + 1;
    }
    StopsAt(ticks, i);
    ConcatLength(Chunks(ticks, i));
    var t := TickAt(ticks, i);
    if t.ctxErr.Some? {
      received := Aborted(t.ctxErr.value);
    } else if t.input.Broken? {
      received := Aborted(Status(Unknown));
    } else {
      received := Complete(imageData);
    }
  }

  lemma ChunksStep(ticks: seq<Tick<UploadImageRequest>>, i: nat)
    requires i < Delivered(ticks)
    ensures Chunks(ticks, i + 1) == Chunks(ticks, i) + [ticks[i].input.msg.GetChunkData()]
    ensures Chunks(ticks, i + 1)[..i] == Chunks(ticks, i)
  {
  }

  lemma ChunksPrefix(ticks: seq<Tick<UploadImageRequest>>, k: nat)
    requires k <= Delivered(ticks)
    ensures Chunks(ticks, Delivered(ticks))[..k] == Chunks(ticks, k)
  {
  }

  // ---------------------------------------------------------------- RateLaptop

  /** One turn of RateLaptop's loop: the context check and the receive, then
      the faults of looking the laptop up and of sending the response. */
  datatype RateTurn = RateTurn(ctxErr: Option<Error>, input: Input<RateLaptopRequest>,
                               findFault: Option<Error>, sendFault: Option<Error>)

  /** Past the end of the sequence the context is live and receives yield io.EOF. */
  function TurnAt(turns: seq<RateTurn>, i: nat): (t: RateTurn)
    ensures i < |turns| ==> t == turns[i]
    ensures i >= |turns| ==> t.ctxErr.None? && t.input.EndOfStream?
  {
    if i < |turns| then turns[i] else RateTurn(None, EndOfStream, None, None)
  }

  /** A turn that rates a known laptop and sends its response, after which the
      loop goes on. */
  predicate Completes(t: RateTurn, laptops: map<string, LaptopRecord>)
  {
    t.ctxErr.None? && t.input.Message? && t.findFault.None? &&
    t.input.msg.laptopId in laptops && t.sendFault.None?
  }

  /** The position of the turn that ends the stream: every earlier turn completes. */
  function Stop(turns: seq<RateTurn>, laptops: map<string, LaptopRecord>): (n: nat)
    ensures n <= |turns|
    ensures forall j :: 0 <= j < n ==> Completes(turns[j], laptops)
    ensures n < |turns| ==> !Completes(turns[n], laptops)
  {
    if turns == [] || !Completes(turns[0], laptops) then 0 else 1 + Stop(turns[1..], laptops)
  }

  /** The requests of the first `n` turns, which all carry a message. */
  function Requests(turns: seq<RateTurn>, n: nat): (reqs: seq<RateLaptopRequest>)
    requires n <= |turns|
    requires forall j :: 0 <= j < n ==> turns[j].input.Message?
    ensures |reqs| == n
  {
    seq(n, j requires 0 <= j < n => turns[j].input.msg)
  }

  /** The aggregates after the store's Add is applied to each request in order. */
  function Rated(reqs: seq<RateLaptopRequest>, start: map<string, Aggregate>): (r: map<string, Aggregate>)
    ensures reqs != [] ==> reqs[|reqs| - 1].laptopId in r && r[reqs[|reqs| - 1].laptopId].count > 0
  {
    if reqs == [] then start
    else
      var last := reqs[|reqs| - 1];
      AddScore(Rated(reqs[..|reqs| - 1], start), last.laptopId, last.score)
  }

  /** How many of the requests rate laptop `id`. */
  function Occurrences(reqs: seq<RateLaptopRequest>, id: string): nat
  {
    if reqs == [] then 0
    else Occurrences(reqs[..|reqs| - 1], id) + (if reqs[|reqs| - 1].laptopId == id then 1 else 0)
  }

  /** The sum of the scores the requests give laptop `id`. */
  function ScoreSum(reqs: seq<RateLaptopRequest>, id: string): real
  {
    if reqs == [] then 0.0
    else ScoreSum(reqs[..|reqs| - 1], id) + (if reqs[|reqs| - 1].laptopId == id then reqs[|reqs| - 1].score else 0.0)
  }

  /** After a sequence of Adds, a laptop's count is its count before plus the
      number of requests for it, and its sum is its sum before plus their scores:
      each Add counts exactly once, for its own laptop only. */
  lemma {:induction false} RatedAggregate(reqs: seq<RateLaptopRequest>, start: map<string, Aggregate>, id: string)
    ensures AggregateOf(Rated(reqs, start), id) ==
      Aggregate(AggregateOf(start, id).count + Occurrences(reqs, id), AggregateOf(start, id).sum + ScoreSum(reqs, id))
  {
    if reqs != [] {
      RatedAggregate(reqs[..|reqs| - 1], start, id);
    }
  }

  lemma {:induction false} OccurrencesBound(reqs: seq<RateLaptopRequest>, id: string)
    ensures Occurrences(reqs, id) <= |reqs|
  {
    if reqs != [] {
      OccurrencesBound(reqs[..|reqs| - 1], id);
    }
  }

  /** The response to a request, from the laptop's aggregate after its Add:
      the count and the average score. */
  function Respond(id: string, a: Aggregate): (r: RateLaptopResponse)
    requires a.count > 0
    ensures r.laptopId == id && r.ratedCount == a.count
    ensures r.averageScore * (r.ratedCount as real) == a.sum
  {
    RateLaptopResponse(id, a.count, a.sum / a.count as real)
  }

  /** The responses RateLaptop sends for the requests, one after each Add. */
  function Responses(reqs: seq<RateLaptopRequest>, start: map<string, Aggregate>): (rs: seq<RateLaptopResponse>)
    ensures |rs| == |reqs|
  {
    if reqs == [] then []
    else
      var last := reqs[|reqs| - 1];
      Responses(reqs[..|reqs| - 1], start) + [Respond(last.laptopId, Rated(reqs, start)[last.laptopId])]
  }

  /** One response per request, in order: the j-th names the j-th request's
      laptop and reports that laptop's aggregate right after the j-th Add, so
      its count is the count before the stream plus the requests for that
      laptop among the first j + 1, and its average their running average. */
  lemma {:induction false} ResponseAt(reqs: seq<RateLaptopRequest>, start: map<string, Aggregate>, j: nat)
    requires j < |reqs|
    ensures var id := reqs[j].laptopId;
      var a := AggregateOf(start, id);
      var c := a.count + Occurrences(reqs[..j + 1], id);
      c > 0 &&
      Responses(reqs, start)[j] == RateLaptopResponse(id, c, (a.sum + ScoreSum(reqs[..j + 1], id)) / c as real)
  {
    var n := |reqs| - 1;
    if j < n {
      ResponseAt(reqs[..n], start, j);
      assert reqs[..n][..j + 1] == reqs[..j + 1];
    } else {
      assert reqs[..j + 1] == reqs;
      RatedAggregate(reqs, start, reqs[j].laptopId);
    }
  }

  /** The example of scores 10, 8 and 6 given to one laptop in a fresh store:
      the responses count 1, 2, 3 and average 10, 9, 8. */
  lemma RatingExample(id: string)
    ensures Responses([RateLaptopRequest(id, 10.0), RateLaptopRequest(id, 8.0), RateLaptopRequest(id, 6.0)], map[]) ==
      [RateLaptopResponse(id, 1, 10.0), RateLaptopResponse(id, 2, 9.0), RateLaptopResponse(id, 3, 8.0)]
  {
    var reqs := [RateLaptopRequest(id, 10.0), RateLaptopRequest(id, 8.0), RateLaptopRequest(id, 6.0)];
    assert reqs[..2][..1] == reqs[..1] == [reqs[0]] && reqs[..1][..0] == [];
    assert Rated(reqs[..1], map[]) == map[id := Aggregate(1, 10.0)];
    assert Rated(reqs[..2], map[]) == map[id := Aggregate(2, 18.0)];
    assert Rated(reqs, map[]) == map[id := Aggregate(3, 24.0)];
    assert Responses(reqs[..1], map[]) == [RateLaptopResponse(id, 1, 10.0)];
    assert Responses(reqs[..2], map[]) == [RateLaptopResponse(id, 1, 10.0), RateLaptopResponse(id, 2, 9.0)];
  }

  /** The error that ends the stream at turn `t`, which does not complete:
      none at io.EOF. */
  function RateEnding(t: RateTurn, laptops: map<string, LaptopRecord>): (r: Option<Error>)
    ensures r.None? <==> t.ctxErr.None? && t.input.EndOfStream?
    ensures t.ctxErr.Some? ==> r == t.ctxErr
    ensures t.ctxErr.None? && t.input.Broken? ==> r == Some(Status(Unknown))
    ensures t.ctxErr.None? && t.input.Message? ==>
      (r == Some(Status(NotFound)) <==> t.findFault.None? && t.input.msg.laptopId !in laptops)
    ensures t.ctxErr.None? && t.input.Message? && t.findFault.Some? ==> r == Some(Status(Internal))
    ensures t.ctxErr.None? && t.input.Message? && t.findFault.None? && t.input.msg.laptopId in laptops ==>
      r == Some(Status(Internal))
  {
    if t.ctxErr.Some? then t.ctxErr
    else match t.input
      case EndOfStream => None
      case Broken(_) => Some(Status(Unknown))
      case Message(req) =>
        if t.findFault.Some? then Some(Status(Internal))
        else if req.laptopId !in laptops then Some(Status(NotFound))
        else Some(Status(Internal))
  }

  /** The request at the ending turn whose rating was added although its
      response could not be sent. */
  function Unsent(t: RateTurn, laptops: map<string, LaptopRecord>): seq<RateLaptopRequest>
  {
    if t.ctxErr.None? && t.input.Message? && t.findFault.None? &&
       t.input.msg.laptopId in laptops && t.sendFault.Some?
    then [t.input.msg] else []
  }

  /** Every request whose rating RateLaptop adds to the store, in order. */
  function Applied(turns: seq<RateTurn>, laptops: map<string, LaptopRecord>): seq<RateLaptopRequest>
  {
    var n := Stop(turns, laptops);
    Requests(turns, n) + Unsent(TurnAt(turns, n), laptops)
  }

  lemma RatedSnoc(reqs: seq<RateLaptopRequest>, req: RateLaptopRequest, start: map<string, Aggregate>)
    ensures Rated(reqs + [req], start) == AddScore(Rated(reqs, start), req.laptopId, req.score)
    ensures Responses(reqs + [req], start) ==
      Responses(reqs, start) + [Respond(req.laptopId, Rated(reqs + [req], start)[req.laptopId])]
  {
    assert (reqs + [req])[..|reqs|] == reqs;
  }

  lemma EndsAt(turns: seq<RateTurn>, laptops: map<string, LaptopRecord>, i: nat)
    requires i <= Stop(turns, laptops)
    requires !Completes(TurnAt(turns, i), laptops)
    ensures Stop(turns, laptops) == i
    ensures Applied(turns, laptops) == Requests(turns, i) + Unsent(TurnAt(turns, i), laptops)
    ensures Unsent(TurnAt(turns, i), laptops) == [] ==> Applied(turns, laptops) == Requests(turns, i)
  {
    assert Requests(turns, i) + [] == Requests(turns, i);
  }

  lemma RequestsStep(turns: seq<RateTurn>, i: nat, laptops: map<string, LaptopRecord>)
    requires i < Stop(turns, laptops)
    ensures Requests(turns, i + 1) == Requests(turns, i) + [turns[i].input.msg]
  {
  }

  /** One turn of RateLaptop's loop: check the context, receive, look the
      laptop up, Add the score and build the response from the live Rating the
      store returns. A turn that completes yields its response; any other turn
      yields the error that ends the stream (none at io.EOF), after adding the
      score when only the send was left to fail. */
  method RateStep(store: InMemoryRatingStore, laptopStore: LaptopStore, t: RateTurn,
                  ghost done: seq<RateLaptopRequest>, ghost start: map<string, Aggregate>)
    returns (res: Option<RateLaptopResponse>, r: Option<Error>)
    requires store.Valid() && store.Contents() == Rated(done, start)
    requires t.input.Message? ==> AggregateOf(start, t.input.msg.laptopId).count + |done| < MAX_UINT32
    modifies store, store.rating.Values
    ensures store.Valid()
    ensures forall x :: x in store.rating.Values ==> x in old(store.rating.Values) || fresh(x)
    ensures res.Some? <==> Completes(t, laptopStore.laptops)
    ensures res.Some? ==> store.Contents() == Rated(done + [t.input.msg], start)
    ensures res.Some? ==>
      res.value == Respond(t.input.msg.laptopId, Rated(done + [t.input.msg], start)[t.input.msg.laptopId])
    ensures res.None? ==> r == RateEnding(t, laptopStore.laptops)
    ensures res.None? ==> store.Contents() == Rated(done + Unsent(t, laptopStore.laptops), start)
  {
    res := None;
    if t.ctxErr.Some? {
      r := t.ctxErr;
      assert done + [] == done;
      return;
    }
    if t.input.EndOfStream? {
      r := None;
      assert done + [] == done;
      return;
    }
    if t.input.Broken? {
      r := Some(Status(Unknown));
      assert done + [] == done;
      return;
    }

    var req := t.input.msg;
    var found := laptopStore.Find(req.laptopId, t.findFault);
    if found.Failure? {
      r := Some(Status(Internal));
      assert done + [] == done;
      return;
    }
    if found.value.None? {
      r := Some(Status(NotFound));
      assert done + [] == done;
      return;
    }

    RatedAggregate(done, start, req.laptopId);
    OccurrencesBound(done, req.laptopId);
    var rating, _ := store.Add(req.laptopId, req.score);
    var response := RateLaptopResponse(req.laptopId, rating.Count, rating.Sum / rating.Count as real);
    RatedSnoc(done, req, start);
    if t.sendFault.Some? {
      r := Some(Status(Internal));
      return;
    }
    res := Some(response);
    r := None;
  }

  // ---------------------------------------------------------------- the server

  class LaptopServer {
    const laptopStore: LaptopStore
    const imageStore: ImageStore
    const ratingStore: InMemoryRatingStore

    /** NewLaptopServer */
    constructor (laptopStore: LaptopStore, imageStore: ImageStore, ratingStore: InMemoryRatingStore)
      ensures this.laptopStore == laptopStore && this.imageStore == imageStore && this.ratingStore == ratingStore
    {
      this.laptopStore := laptopStore;
      this.imageStore := imageStore;
      this.ratingStore := ratingStore;
    }

    /** CreateLaptop: choose the ID (validate it or generate one, assigning it
        to the request's laptop in place), give up if the context is done,
        then save and map a save error to its status code. The reply is the ID
        the laptop was saved under. `laptop` is null when the request carries
        no laptop: its ID then reads as empty and the generated ID is assigned
        through the null pointer, which panics. */
    method CreateLaptop(ctxErr: Option<Error>, laptop: Laptop?, isUuid: string -> bool,
                        generated: Result<string>, saveFault: Option<Error>) returns (h: Handled<string>)
      modifies laptop, laptopStore
      ensures h == CreateAsWritten(if laptop == null then None else Some(old(laptop.Id)),
                                   isUuid, generated, ctxErr, saveFault, old(laptopStore.laptops))
      ensures laptop != null ==>
        laptop.Id == (if ChooseId(old(laptop.Id), isUuid, generated).Success?
                      then ChooseId(old(laptop.Id), isUuid, generated).value else old(laptop.Id))
      ensures laptopStore.laptops == if laptop != null && h.Replied? && h.reply.Success?
                                     then old(laptopStore.laptops)[h.reply.value := LaptopRecord(h.reply.value, laptop.specs)]
                                     else old(laptopStore.laptops)
    {
      if laptop == null {
        if generated.Failure? {
          return Replied(Failure(Status(Internal)));
        }
        return Panicked;
      }
      if |laptop.Id| > 0 {
        if !isUuid(laptop.Id) {
          return Replied(Failure(Status(InvalidArgument)));
        }
      } else {
        if generated.Failure? {
          return Replied(Failure(Status(Internal)));
        }
        laptop.Id := generated.value;
      }

      if ctxErr.Some? {
        return Replied(Failure(ctxErr.value));
      }

      var err := laptopStore.Save(laptop, saveFault);
      if err.Some? {
        var code := Internal;
        if Is(err.value, ErrAlreadyExists) {
          code := AlreadyExists;
        }
        return Replied(Failure(Status(code)));
      }

      h := Replied(Success(laptop.Id));
    }

    /** UploadImage: read the image info, check the laptop exists, collect
        the chunks up to io.EOF under the size cap, hand the bytes to the image
        store exactly once, and answer with the image ID and size. The image
        store is called only when the whole image arrived within the cap. */
    method UploadImage(first: Input<UploadImageRequest>, ticks: seq<Tick<UploadImageRequest>>,
                       findFault: Option<Error>, sinkReply: Result<string>, closeFault: Option<Error>)
      returns (r: Result<UploadImageResponse>)
      modifies imageStore
      ensures var info := ImageInfo(first, laptopStore.laptops, findFault);
        info.Failure? ==> r == Failure(info.error) && imageStore.saves == old(imageStore.saves)
      ensures ImageInfo(first, laptopStore.laptops, findFault).Success? && ReceiveImage(ticks).Aborted? ==>
        r == Failure(ReceiveImage(ticks).error) && imageStore.saves == old(imageStore.saves)
      ensures var info := ImageInfo(first, laptopStore.laptops, findFault);
        info.Success? && ReceiveImage(ticks).Complete? ==>
          imageStore.saves == old(imageStore.saves) + [ImageSave(info.value.0, info.value.1, ReceiveImage(ticks).data)] &&
          r == UploadReply(ReceiveImage(ticks).data, sinkReply, closeFault)
    {
      if !first.Message? {
        return Failure(Status(Unknown));
      }
      var laptopID := first.msg.GetLaptopId();
      var imageType := first.msg.GetImageType();

      var found := laptopStore.Find(laptopID, findFault);
      if found.Failure? {
        return Failure(Status(Internal));
      }
      if found.value.None? {
        return Failure(Status(NotFound));
      }

      var received := ReceiveChunks(ticks);
      if received.Aborted? {
        return Failure(received.error);
      }
      var imageData := received.data;
      var imageSize := |imageData|;

      var saved := imageStore.Save(laptopID, imageType, imageData, sinkReply);
      if saved.Failure? {
        return Failure(Status(Internal));
      }
      if closeFault.Some? {
        return Failure(Status(Unknown));
      }
      r := Success(UploadImageResponse(saved.value, Uint32(imageSize)));
    }

    /** RateLaptop: for each request in order, check the laptop exists, add
        the score to the rating store and send the updated count and average
        before receiving the next request. An unknown laptop aborts the whole
        stream with NotFound. `sent` is what reached the client. */
    method RateLaptop(turns: seq<RateTurn>) returns (sent: seq<RateLaptopResponse>, r: Option<Error>)
      requires ratingStore.Valid()
      requires forall id {:trigger AggregateOf(ratingStore.Contents(), id)} ::
        AggregateOf(ratingStore.Contents(), id).count + |turns| <= MAX_UINT32
      modifies ratingStore, ratingStore.rating.Values
      ensures ratingStore.Valid()
      ensures sent == Responses(Requests(turns, Stop(turns, laptopStore.laptops)), old(ratingStore.Contents()))
      ensures r == RateEnding(TurnAt(turns, Stop(turns, laptopStore.laptops)), laptopStore.laptops)
      ensures ratingStore.Contents() == Rated(Applied(turns, laptopStore.laptops), old(ratingStore.Contents()))
    {
      ghost var start := ratingStore.Contents();
      ghost var laptops := laptopStore.laptops;
      ghost var done: seq<RateLaptopRequest> := [];
      assert forall id :: AggregateOf(start, id).count + |turns| <= MAX_UINT32;
      sent := [];
      var i: nat := 0;
      while true
        invariant i <= Stop(turns, laptops) && done == Requests(turns, i)
        invariant ratingStore.Valid()
        invariant ratingStore.Contents() == Rated(done, start)
        invariant sent == Responses(done, start)
        invariant forall x :: x in ratingStore.rating.Values ==> x in old(ratingStore.rating.Values) || fresh(x)
        decreases |turns| - i
      {
        var t := TurnAt(turns, i);
        var res, err := RateStep(ratingStore, laptopStore, t, done, start);
        if res.None? {
          EndsAt(turns, laptops, i);
          r := err;
          break;
        }
        RequestsStep(turns, i, laptops);
        sent := sent + [res.value];
        done := done + [t.input.msg];
        i := i + 1;
      }
    }
  }
}
