/**
 The package reader: turns a workout code and a flat list of sensor readings
 into a `Workout`, passing the readings positionally to the variant.
 */
module Dispatch {
  import opened Training

  /** Why a package could not be read: the code is not one of the three
      known codes (a missing key in the source's table), or the number of
      readings does not match the variant's constructor. */
  datatype DispatchError =
    | UnknownWorkoutType(code: string)
    | InvalidReadingArity(code: string, expected: nat, given: nat)

  datatype Result<+T> = Success(value: T) | Failure(error: DispatchError)

  /** The closed set of codes the reader knows. */
  const Codes: set<string> := {"RUN", "WLK", "SWM"}

  /** Number of readings each code's constructor takes. */
  function Arity(code: string): (n: nat)
    requires code in Codes
    ensures 3 <= n <= 5
  {
    if code == "RUN" then 3 else if code == "WLK" then 4 else 5
  }

  /** The code that selects a workout's variant. */
  function Code(w: Workout): (c: string)
    ensures c in Codes
  {
    match w
    case Running(_, _, _) => "RUN"
    case SportsWalking(_, _, _, _) => "WLK"
    case Swimming(_, _, _, _, _) => "SWM"
  }

  /** The readings of a workout in constructor order. */
  function Readings(w: Workout): (data: seq<real>)
    ensures |data| == Arity(Code(w))
    ensures data[0] == w.action && data[1] == w.duration && data[2] == w.weight
    ensures w.SportsWalking? ==> data[3] == w.height
    ensures w.Swimming? ==> data[3] == w.lengthPool && data[4] == w.countPool
  {
    match w
    case Running(a, d, m) => [a, d, m]
    case SportsWalking(a, d, m, h) => [a, d, m, h]
    case Swimming(a, d, m, l, c) => [a, d, m, l, c]
  }

  /** Looks the code up first and only then checks the readings against the
      constructor, so an unknown code is reported whatever the readings. */
  function ReadPackage(code: string, data: seq<real>): (r: Result<Workout>)
    ensures r.Failure? && r.error.UnknownWorkoutType? <==> code !in Codes
    ensures r.Failure? && r.error.InvalidReadingArity? <==>
              code in Codes && |data| != Arity(code)
    ensures r.Success? ==> Code(r.value) == code && Readings(r.value) == data
    ensures r.Failure? ==> r.error.code == code
    ensures r.Failure? && r.error.InvalidReadingArity? ==>
              r.error.expected == Arity(code) && r.error.given == |data|
  {
    if code == "RUN" then
      if |data| == 3 then Success(Running(data[0], data[1], data[2]))
      else Failure(InvalidReadingArity(code, 3, |data|))
    else if code == "WLK" then
      if |data| == 4 then Success(SportsWalking(data[0], data[1], data[2], data[3]))
      else Failure(InvalidReadingArity(code, 4, |data|))
    else if code == "SWM" then
      if |data| == 5 then Success(Swimming(data[0], data[1], data[2], data[3], data[4]))
      else Failure(InvalidReadingArity(code, 5, |data|))
    else
      Failure(UnknownWorkoutType(code))
  }

  /** Reading back the code and readings of any workout rebuilds it. */
  lemma ReadPackageRoundTrip(w: Workout)
    ensures ReadPackage(Code(w), Readings(w)) == Success(w)
  {
  }

  /** A package is read exactly when its code is known and its arity right,
      and what is read is the only workout with that code and readings. */
  lemma ReadPackageSucceedsExactly(code: string, data: seq<real>)
    ensures ReadPackage(code, data).Success? <==> code in Codes && |data| == Arity(code)
    ensures forall w :: ReadPackage(code, data) == Success(w) <==>
              Code(w) == code && Readings(w) == data
  {
  }
}
