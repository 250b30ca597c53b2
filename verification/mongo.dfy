/** MongoDB's `primitive.ObjectID`, the id type of every stored document. */
module Mongo {
  /** A MongoDB object id: twelve bytes. */
  type ObjectId = s: seq<bv8> | |s| == 12
    witness seq(12, _ => 0)

  /** The zero id, Go's zero value of `primitive.ObjectID`. */
  const ZeroId: ObjectId := [0, 0, 0, 0, 0, 0, 0, 0, 0, 0, 0, 0]
}
