/**
  Dispatch of a sensor package: a workout code plus a positional list of
  readings becomes one of the three workouts, or one of the errors the
  dispatcher raises.
*/
module Packages {
  import opened Results
  import opened Workouts

  /** The workout classes a package code can name. */
  datatype Kind = Swim | Run | Walk

  /** The code-to-class dictionary, in its declaration order. */
  const WorkoutGenerator: seq<(string, Kind)> := [("SWM", Swim), ("RUN", Run), ("WLK", Walk)]

  /** The errors the dispatcher raises, one variant per distinct failure. */
  datatype PackageError =
    | UnknownTrainingType(message: string)      // KeyError: code not in the dictionary
    | NullDataItem(message: string)             // IndexError: a reading equals zero
    | InvalidData(message: string)              // IndexError: no readings at all
    | ArityMismatch(expected: nat, given: nat)  // TypeError: the class rejects the argument count

  const NullItemMessage: string := "Data items can not be null"
  const InvalidDataMessage: string := "Invalid data"

  /** The three codes the dispatcher accepts. */
  predicate IsWorkoutCode(code: string) {
    code == "SWM" || code == "RUN" || code == "WLK"
  }

  /** Dictionary lookup on an association list: the first entry with the key. */
  function Lookup(table: seq<(string, Kind)>, key: string): (r: Option<Kind>)
    ensures r.None? <==> forall i :: 0 <= i < |table| ==> table[i].0 != key
    ensures r.Some? ==> exists i :: 0 <= i < |table| && table[i] == (key, r.value)
                                    && forall j :: 0 <= j < i ==> table[j].0 != key
  {
    if |table| == 0 then None
    else if table[0].0 == key then Some(table[0].1)
    else Lookup(table[1..], key)
  }

  /** The keys of an association list, in order. */
  function Keys(table: seq<(string, Kind)>): (ks: seq<string>)
    ensures |ks| == |table|
    ensures forall i :: 0 <= i < |table| ==> ks[i] == table[i].0
  {
    if |table| == 0 then [] else [table[0].0] + Keys(table[1..])
  }

  /** Python's `sep.join(parts)`; `JoinSnoc` states how it grows at the end. */
  function Join(sep: string, parts: seq<string>): string {
    if |parts| == 0 then ""
    else if |parts| == 1 then parts[0]
    else parts[0] + sep + Join(sep, parts[1..])
  }

  /** The message of the unknown-code error: it lists the dictionary's keys in order. */
  function UnknownTypeMessage(): (m: string)
    ensures m == "Invalid training type. Available types: SWM, RUN, WLK"
  {
    assert Keys(WorkoutGenerator) == ["SWM", "RUN", "WLK"];
    assert ["SWM", "RUN", "WLK"][1..] == ["RUN", "WLK"];
    assert ["RUN", "WLK"][1..] == ["WLK"];
    assert Join(", ", ["WLK"]) == "WLK";
    assert Join(", ", ["RUN", "WLK"]) == "RUN" + ", " + "WLK";
    assert Join(", ", ["SWM", "RUN", "WLK"]) == "SWM" + ", " + "RUN, WLK";
    "Invalid training type. Available types: " + Join(", ", Keys(WorkoutGenerator))
  }

  /** The class a workout was built from, the one whose name its summary reports. */
  function KindOf(t: Training): (k: Kind)
    ensures k == Run <==> TypeName(t) == "Running"
    ensures k == Walk <==> TypeName(t) == "SportsWalking"
    ensures k == Swim <==> TypeName(t) == "Swimming"
  {
    match t
    case Running(_, _, _) => Run
    case SportsWalking(_, _, _, _) => Walk
    case Swimming(_, _, _, _, _) => Swim
  }

  /** The number of constructor arguments of each class: at least action, duration and weight. */
  function Arity(k: Kind): (n: nat)
    ensures n >= 3
  {
    match k
    case Swim => 5
    case Run => 3
    case Walk => 4
  }

  /** The readings of a workout in its constructor's parameter order. */
  function Fields(t: Training): (data: seq<real>)
    ensures |data| == Arity(KindOf(t))
    ensures data[0] == t.action && data[1] == t.duration && data[2] == t.weight
    ensures t.SportsWalking? ==> data[3] == t.height
    ensures t.Swimming? ==> data[3] == t.lengthPool && data[4] == t.countPool
  {
    match t
    case Running(a, d, w) => [a, d, w]
    case SportsWalking(a, d, w, h) => [a, d, w, h]
    case Swimming(a, d, w, l, c) => [a, d, w, l, c]
  }

  /** Calling the class on the readings, positionally. */
  function Construct(k: Kind, data: seq<real>): (t: Training)
    requires |data| == Arity(k)
    ensures KindOf(t) == k && Fields(t) == data
  {
    match k
    case Swim => Swimming(data[0], data[1], data[2], data[3], data[4])
    case Run => Running(data[0], data[1], data[2])
    case Walk => SportsWalking(data[0], data[1], data[2], data[3])
  }

  /** True when some reading is zero (the scan that raises on a null item). */
  function HasZero(data: seq<real>): (b: bool)
    ensures b <==> exists i :: 0 <= i < |data| && data[i] == 0.0
  {
    if |data| == 0 then false
    else data[0] == 0.0 || HasZero(data[1..])
  }

  /**
    The dispatcher. The code is checked first, then every reading against
    zero, then the list against emptiness; the class call then fails on a
    wrong number of readings.
  */
  function ReadPackage(workoutType: string, data: seq<real>): (r: Result<Training, PackageError>)
    ensures r.Success? ==> IsWorkoutCode(workoutType) && Fields(r.value) == data
    ensures r.Success? ==> Lookup(WorkoutGenerator, workoutType) == Some(KindOf(r.value))
    ensures r.Success? ==> forall i :: 0 <= i < |data| ==> data[i] != 0.0
    ensures r.Success? ==> Admissible(r.value)
  {
    match Lookup(WorkoutGenerator, workoutType)
    case None => Failure(UnknownTrainingType(UnknownTypeMessage()))
    case Some(k) =>
      if HasZero(data) then Failure(NullDataItem(NullItemMessage))
      else if |data| == 0 then Failure(InvalidData(InvalidDataMessage))
      else if |data| != Arity(k) then Failure(ArityMismatch(Arity(k), |data|))
      else
        var t := Construct(k, data);
        assert t.duration == data[1];
        assert t.SportsWalking? ==> t.height == data[3];
        Success(t)
  }

  /** The code of each class in the dictionary. */
  function CodeOf(k: Kind): (code: string)
    ensures Lookup(WorkoutGenerator, code) == Some(k)
  {
    match k
    case Swim => "SWM"
    case Run => "RUN"
    case Walk => "WLK"
  }

  // ---------------------------------------------------------------------
  // Properties of the dispatcher

  /** The dictionary knows exactly the three codes, each bound to its class. */
  lemma LookupWorkoutCode(code: string)
    ensures Lookup(WorkoutGenerator, code).Some? <==> IsWorkoutCode(code)
    ensures code == "SWM" ==> Lookup(WorkoutGenerator, code) == Some(Swim)
    ensures code == "RUN" ==> Lookup(WorkoutGenerator, code) == Some(Run)
    ensures code == "WLK" ==> Lookup(WorkoutGenerator, code) == Some(Walk)
  {
  }

  /**
    Joining one more part appends a separator and that part, so the parts
    appear in order, one separator between each two neighbours.
  */
  lemma {:induction false} JoinSnoc(sep: string, parts: seq<string>, p: string)
    requires |parts| > 0
    ensures Join(sep, parts + [p]) == Join(sep, parts) + sep + p
  {
    if |parts| > 1 {
      assert (parts + [p])[1..] == parts[1..] + [p];
      JoinSnoc(sep, parts[1..], p);
    }
  }

  /** An unknown code fails with the code error whatever the readings, and only it does. */
  lemma ReadPackageUnknownType(workoutType: string, data: seq<real>)
    ensures !IsWorkoutCode(workoutType) ==>
              ReadPackage(workoutType, data)
              == Failure(UnknownTrainingType("Invalid training type. Available types: SWM, RUN, WLK"))
    ensures (ReadPackage(workoutType, data).Failure? && ReadPackage(workoutType, data).error.UnknownTrainingType?)
      <==> !IsWorkoutCode(workoutType)
  {
    LookupWorkoutCode(workoutType);
  }

  /** With a known code, a zero reading anywhere yields the null-item error, and nothing else does. */
  lemma ReadPackageNullItem(workoutType: string, data: seq<real>)
    ensures ReadPackage(workoutType, data) == Failure(NullDataItem("Data items can not be null"))
      <==> IsWorkoutCode(workoutType) && exists i :: 0 <= i < |data| && data[i] == 0.0
  {
  }

  /** With a known code, only the empty list yields the invalid-data error. */
  lemma ReadPackageEmpty(workoutType: string, data: seq<real>)
    ensures ReadPackage(workoutType, data) == Failure(InvalidData("Invalid data"))
      <==> IsWorkoutCode(workoutType) && |data| == 0
  {
  }

  /** A known code with non-zero readings of the wrong count fails at the class call. */
  lemma ReadPackageArity(workoutType: string, data: seq<real>)
    requires IsWorkoutCode(workoutType)
    ensures var k := if workoutType == "SWM" then Swim else if workoutType == "RUN" then Run else Walk;
      (ReadPackage(workoutType, data).Failure? && ReadPackage(workoutType, data).error.ArityMismatch?)
      <==> (forall i :: 0 <= i < |data| ==> data[i] != 0.0) && 0 < |data| && |data| != Arity(k)
  {
  }

  /**
    Success happens exactly for a known code with the right number of
    non-zero readings, and the workout takes the readings positionally.
  */
  lemma ReadPackageSuccess(workoutType: string, data: seq<real>)
    ensures ReadPackage(workoutType, data).Success? <==>
      && IsWorkoutCode(workoutType)
      && (forall i :: 0 <= i < |data| ==> data[i] != 0.0)
      && |data| == (if workoutType == "SWM" then 5 else if workoutType == "RUN" then 3 else 4)
    ensures workoutType == "RUN" && |data| == 3 && ReadPackage(workoutType, data).Success? ==>
      ReadPackage(workoutType, data).value == Running(data[0], data[1], data[2])
    ensures workoutType == "WLK" && |data| == 4 && ReadPackage(workoutType, data).Success? ==>
      ReadPackage(workoutType, data).value == SportsWalking(data[0], data[1], data[2], data[3])
    ensures workoutType == "SWM" && |data| == 5 && ReadPackage(workoutType, data).Success? ==>
      ReadPackage(workoutType, data).value == Swimming(data[0], data[1], data[2], data[3], data[4])
  {
  }

  /** Reading back a workout's own code and readings rebuilds it, when no reading is zero. */
  lemma ReadPackageRoundTrip(t: Training)
    requires forall i :: 0 <= i < |Fields(t)| ==> Fields(t)[i] != 0.0
    ensures ReadPackage(CodeOf(KindOf(t)), Fields(t)) == Success(t)
  {
  }
}
