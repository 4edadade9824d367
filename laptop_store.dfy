/** The laptop store and the image store as the laptop handlers use them. Their
    implementations (the in-memory laptop store, the disk image store) are not
    part of this model: the laptop store is an abstract map whose operations
    may also fail for a reason of the implementation's own (a `fault` the
    caller supplies), and the image store is a sink that records every call
    and answers with the reply the caller supplies. */
module LaptopRepository {
  import opened Base
  import opened Pb

  /** The copy of a laptop a store keeps. */
  datatype LaptopRecord = LaptopRecord(id: string, specs: Specs)

  class LaptopStore {
    var laptops: map<string, LaptopRecord>

    constructor ()
      ensures laptops == map[]
    {
      laptops := map[];
    }

    /** Save: fails with the implementation's fault if there is one, with
        ErrAlreadyExists when the ID is taken, and otherwise stores a copy of
        the laptop under its ID. A failed save changes nothing. */
    method Save(laptop: Laptop, fault: Option<Error>) returns (err: Option<Error>)
      modifies this
      ensures fault.Some? ==> err == fault
      ensures fault.None? ==> (err.Some? <==> laptop.Id in old(laptops))
      ensures fault.None? && err.Some? ==> err == Some(ErrAlreadyExists)
      ensures err.Some? ==> laptops == old(laptops)
      ensures err.None? ==> laptops == old(laptops)[laptop.Id := LaptopRecord(laptop.Id, laptop.specs)]
    {
      if fault.Some? {
        return fault;
      }
      if laptop.Id in laptops {
        return Some(ErrAlreadyExists);
      }
      laptops := laptops[laptop.Id := LaptopRecord(laptop.Id, laptop.specs)];
      err := None;
    }

    /** Find: the implementation's fault if there is one; otherwise the laptop
        with that ID, or nothing (absence is not an error). */
    function Find(id: string, fault: Option<Error>): (r: Result<Option<LaptopRecord>>)
      reads this
      ensures fault.Some? ==> r == Failure(fault.value)
      ensures fault.None? ==> r.Success? && (r.value.Some? <==> id in laptops)
      ensures r.Success? && r.value.Some? ==> r.value.value == laptops[id]
    {
      if fault.Some? then Failure(fault.value)
      else if id in laptops then Success(Some(laptops[id]))
      else Success(None)
    }
  }

  /** One call of `imageStore.Save(laptopID, imageType, imageData)`. */
  datatype ImageSave = ImageSave(laptopId: string, imageType: string, data: seq<byte>)

  class ImageStore {
    /** Every call made so far, in order. */
    var saves: seq<ImageSave>

    constructor ()
      ensures saves == []
    {
      saves := [];
    }

    /** Save: records the call and answers with `reply`, the image ID or the
        error the store's implementation produces for it. */
    method Save(laptopId: string, imageType: string, data: seq<byte>, reply: Result<string>) returns (r: Result<string>)
      modifies this
      ensures saves == old(saves) + [ImageSave(laptopId, imageType, data)]
      ensures r == reply
    {
      saves := saves + [ImageSave(laptopId, imageType, data)];
      r := reply;
    }
  }
}
