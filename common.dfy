/** Types shared by the backend and the frontend models: optional and
    fallible values, the four facade orientations, a record holding one value
    per orientation, and the outcome of an Express middleware. */
module Common {

  datatype Option<+T> = None | Some(value: T)

  /** A computation that either yields a value or throws an error with a message. */
  datatype Result<+T> = Success(value: T) | Failure(error: string)

  /** The four facades, in the order every loop of the system visits them. */
  datatype Direction = North | South | East | West

  const Directions: seq<Direction> := [North, South, East, West]

  /** The key under which a direction appears in JSON objects and messages. */
  function DirectionName(d: Direction): string
  {
    match d
    case North => "north"
    case South => "south"
    case East => "east"
    case West => "west"
  }

  /** Position of a direction in `Directions`. */
  function IndexOf(d: Direction): (i: nat)
    ensures i < |Directions| && Directions[i] == d
  {
    match d
    case North => 0
    case South => 1
    case East => 2
    case West => 3
  }

  /** An object with exactly the keys north, south, east and west. */
  datatype Quad<T> = Quad(north: T, south: T, east: T, west: T)
  {
    function At(d: Direction): T
    {
      match d
      case North => north
      case South => south
      case East => east
      case West => west
    }

    /** The same object with the value under `d` replaced. */
    function With(d: Direction, v: T): (q: Quad<T>)
      ensures q.At(d) == v
      ensures forall e :: e != d ==> q.At(e) == At(e)
    {
      match d
      case North => this.(north := v)
      case South => this.(south := v)
      case East => this.(east := v)
      case West => this.(west := v)
    }
  }

  /** What an Express middleware does with a request: hand it to the next
      handler, answer it with a status and a message, or throw (which the
      framework turns into a 500 answer). */
  datatype Outcome = Next | Respond(status: int, message: string) | Throws(error: string)
}
