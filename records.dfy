/**
 * The user record as the users store keeps it (a dictionary in the service), and the photo
 * objects kept by the photo storage. Only the keys that the review workflow and the webhook
 * notifier read or write are modelled.
 */
module Records {

  /** A dictionary entry: the key may be missing, present with None, or present with a value. */
  datatype Nullable<T> = Absent | Null | Value(value: T)

  /** What `user_reviewed` records about the last review of an account. */
  datatype ReviewMark = Pending | Reviewed(adminId: string, retry: bool)

  datatype UserRecord = UserRecord(
    possibleDuplicateWith: seq<string>,  // ids of candidate duplicates
    duplicateReviewCount: Nullable<int>,
    ip: string,                          // "" when the key is missing or empty
    disabledAt: Nullable<int>,           // nanoseconds since the epoch
    review: ReviewMark)

  /** The record the service builds for an id the store does not know: `{"user_id": id}`. */
  const Blank := UserRecord([], Absent, "", Absent, Pending)

  type Photo = seq<bv8>

  /** `user.get("duplicate_review_count", 0)`: a missing key reads as 0, a stored None stays None. */
  function ReviewCount(u: UserRecord): (c: Nullable<int>)
    ensures c.Absent? == false
    ensures u.duplicateReviewCount.Absent? ==> c == Value(0)
    ensures u.duplicateReviewCount.Null? ==> c == Null
    ensures u.duplicateReviewCount.Value? ==> c == u.duplicateReviewCount
  {
    if u.duplicateReviewCount.Absent? then Value(0) else u.duplicateReviewCount
  }

  /** A stored photo that Python treats as true: the object exists and is not empty. */
  predicate Present(photos: map<string, Photo>, id: string)
  {
    id in photos && |photos[id]| > 0
  }

  function Lookup(users: map<string, UserRecord>, id: string): UserRecord
  {
    if id in users then users[id] else Blank
  }
}
