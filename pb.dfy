/** The protocol-buffer messages the handlers exchange and the full method
    names the interceptors key on. The generated package itself is not part of
    this model; only the fields the handlers read or write appear here. */
module Pb {
  import opened Base

  const LAPTOP_SERVICE_PATH: string := "/playingwithgolang.grpc.LaptopService/"
  const CREATE_LAPTOP: string := LAPTOP_SERVICE_PATH + "CreateLaptop"
  const SEARCH_LAPTOP: string := LAPTOP_SERVICE_PATH + "SearchLaptop"
  const UPLOAD_IMAGE: string := LAPTOP_SERVICE_PATH + "UploadImage"
  const RATE_LAPTOP: string := LAPTOP_SERVICE_PATH + "RateLaptop"
  const LOGIN: string := "/playingwithgolang.grpc.AuthService/Login"

  /** The fields of a laptop other than its ID (brand, CPU, memory, price and
      the rest), which no handler inspects: they are carried as one opaque
      value, the message's encoding. */
  datatype Specs = Specs(encoded: seq<byte>)

  /** A `*pb.Laptop` received in a request. CreateLaptop assigns its Id in place. */
  class Laptop {
    var Id: string
    const specs: Specs

    constructor (id: string, specs: Specs)
      ensures Id == id && this.specs == specs
    {
      Id := id;
      this.specs := specs;
    }
  }

  /** UploadImageRequest: a oneof of the image info and one chunk of bytes. */
  datatype UploadImageRequest =
    | Info(laptopId: string, imageType: string)
    | ChunkData(chunk: seq<byte>)
  {
    /** GetInfo().GetLaptopId(): the empty string when the message holds a chunk. */
    function GetLaptopId(): string
    {
      if Info? then laptopId else ""
    }

    /** GetInfo().GetImageType(): the empty string when the message holds a chunk. */
    function GetImageType(): string
    {
      if Info? then imageType else ""
    }

    /** GetChunkData(): no bytes when the message holds the info. */
    function GetChunkData(): seq<byte>
    {
      if ChunkData? then chunk else []
    }
  }

  datatype UploadImageResponse = UploadImageResponse(id: string, size: nat)

  datatype RateLaptopRequest = RateLaptopRequest(laptopId: string, score: real)

  datatype RateLaptopResponse = RateLaptopResponse(laptopId: string, ratedCount: nat, averageScore: real)

  datatype LoginRequest = LoginRequest(username: string, password: string)

  datatype LoginResponse = LoginResponse(accessToken: string)
}
