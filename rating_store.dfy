/** InMemoryRatingStore: per laptop ID a `*Rating` holding how many scores were
    added and their sum, updated in place. The store's lock is not modelled:
    Add is one atomic step. Scores and sums are exact reals (float64 rounding
    is not modelled); the uint32 count is kept below its maximum by Add's
    precondition. */
module RatingRepository {
  import opened Base

  const MAX_UINT32: nat := 0xFFFF_FFFF

  /** A `*Rating`: the store keeps one per laptop and updates it in place. */
  class Rating {
    var Count: nat
    var Sum: real

    /** `&Rating{}`: the zero value. */
    constructor ()
      ensures Count == 0 && Sum == 0.0
    {
      Count := 0;
      Sum := 0.0;
    }
  }

  /** The value of a Rating at one moment. */
  datatype Aggregate = Aggregate(count: nat, sum: real)

  /** The aggregate of `id` in `ratings`, zero when the store has no entry. */
  function AggregateOf(ratings: map<string, Aggregate>, id: string): Aggregate
  {
    if id in ratings then ratings[id] else Aggregate(0, 0.0)
  }

  /** What Add does to the aggregates: an absent key starts from zero; the key's
      count rises by one and its sum by `score`; every other key is untouched. */
  function AddScore(ratings: map<string, Aggregate>, id: string, score: real): (r: map<string, Aggregate>)
    ensures r.Keys == ratings.Keys + {id}
    ensures r[id].count == AggregateOf(ratings, id).count + 1
    ensures r[id].sum == AggregateOf(ratings, id).sum + score
    ensures id !in ratings ==> r[id] == Aggregate(1, score)
    ensures forall k :: k in ratings && k != id ==> r[k] == ratings[k]
    ensures forall k :: k != id ==> AggregateOf(r, k) == AggregateOf(ratings, k)
  {
    var a := AggregateOf(ratings, id);
    ratings[id := Aggregate(a.count + 1, a.sum + score)]
  }

  class InMemoryRatingStore {
    var rating: map<string, Rating>

    /** No two laptops share one Rating object, so updating one entry in place
        changes no other. */
    ghost predicate Valid()
      reads this
    {
      forall a, b :: a in rating && b in rating && a != b ==> rating[a] != rating[b]
    }

    /** The aggregates the store holds now. */
    ghost function Contents(): map<string, Aggregate>
      reads this, rating.Values
    {
      map id | id in rating :: Aggregate(rating[id].Count, rating[id].Sum)
    }

    /** NewInMemoryRatingStore */
    constructor ()
      ensures Valid() && rating == map[] && Contents() == map[]
    {
      rating := map[];
    }

    /** The lookup half of Add: the laptop's entry, created at zero and
        stored when absent. */
    method Entry(laptopID: string) returns (r: Rating)
      requires Valid()
      modifies this
      ensures Valid() && laptopID in rating && r == rating[laptopID]
      ensures Contents() == old(Contents())[laptopID := AggregateOf(old(Contents()), laptopID)]
      ensures laptopID in old(rating) ==> r == old(rating[laptopID])
      ensures laptopID !in old(rating) ==> fresh(r)
      ensures forall id :: id in old(rating) ==> id in rating && rating[id] == old(rating[id])
      ensures forall x :: x in rating.Values ==> x in old(rating.Values) || fresh(x)
    {
      if laptopID in rating {
        r := rating[laptopID];
        assert Contents() == old(Contents())[laptopID := AggregateOf(old(Contents()), laptopID)];
      } else {
        r := new Rating();
        rating := rating[laptopID := r];
      }
    }

    /** The update half of Add: `rating.Count++` and `rating.Sum += score` on
        the laptop's live entry, which no other laptop shares. */
    method Increment(r: Rating, laptopID: string, score: real)
      requires Valid() && laptopID in rating && rating[laptopID] == r
      modifies r
      ensures r.Count == old(r.Count) + 1 && r.Sum == old(r.Sum) + score
      ensures Contents() == AddScore(old(Contents()), laptopID, score)
    {
      r.Count := r.Count + 1;
      r.Sum := r.Sum + score;
      ghost var expected := AddScore(old(Contents()), laptopID, score);
      forall id | id in rating
        ensures id in expected && Contents()[id] == expected[id]
      {
        if id != laptopID {
          assert rating[id] != r;
        }
      }
      assert Contents().Keys == expected.Keys;
    }

    /** Add: never fails; creates a zero entry for an unknown laptop, then
        increments its count and adds the score, in place. The Rating returned
        is the live entry of the map, not a copy. */
    method Add(laptopID: string, score: real) returns (r: Rating, err: Option<Error>)
      requires Valid()
      requires AggregateOf(Contents(), laptopID).count < MAX_UINT32
      modifies this, rating.Values
      ensures Valid() && err == None
      ensures Contents() == AddScore(old(Contents()), laptopID, score)
      ensures laptopID in rating && r == rating[laptopID]
      ensures r.Count == Contents()[laptopID].count && r.Sum == Contents()[laptopID].sum
      ensures laptopID in old(rating) ==> r == old(rating[laptopID])
      ensures laptopID !in old(rating) ==> fresh(r)
      ensures forall id :: id in old(rating) ==> id in rating && rating[id] == old(rating[id])
      ensures forall x :: x in rating.Values ==> x in old(rating.Values) || fresh(x)
    {
      ghost var before := Contents();
      r := Entry(laptopID);
      assert AddScore(Contents(), laptopID, score) == AddScore(before, laptopID, score);
      Increment(r, laptopID, score);
      err := None;
    }
  }
}
