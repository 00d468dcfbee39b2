/**
  The three sample packages of the driver, read and summarised. The expected
  figures are exact because every quantity is a real number.
*/
module Samples {
  import opened Results
  import opened Workouts
  import opened Packages

  /** 720 strokes in one hour at 80 kg, forty laps of a 25 m pool. */
  lemma SwimmingSample()
    ensures ReadPackage("SWM", [720.0, 1.0, 80.0, 25.0, 40.0]) == Success(Swimming(720.0, 1.0, 80.0, 25.0, 40.0))
    ensures ShowTrainingInfo(Swimming(720.0, 1.0, 80.0, 25.0, 40.0))
            == InfoMessage("Swimming", 1.0, 0.9936, 1.0, 336.0)
  {
  }

  /** 15000 steps in one hour at 75 kg. */
  lemma RunningSample()
    ensures ReadPackage("RUN", [15000.0, 1.0, 75.0]) == Success(Running(15000.0, 1.0, 75.0))
    ensures ShowTrainingInfo(Running(15000.0, 1.0, 75.0)) == InfoMessage("Running", 1.0, 9.75, 9.75, 699.75)
  {
  }

  /** 9000 steps in one hour at 75 kg and 180 cm: the floor term is zero. */
  lemma WalkingSample()
    ensures ReadPackage("WLK", [9000.0, 1.0, 75.0, 180.0]) == Success(SportsWalking(9000.0, 1.0, 75.0, 180.0))
    ensures ShowTrainingInfo(SportsWalking(9000.0, 1.0, 75.0, 180.0))
            == InfoMessage("SportsWalking", 1.0, 5.85, 5.85, 157.5)
  {
  }

  /** A code outside the dictionary is refused before the readings are looked at. */
  lemma UnknownCodeSample()
    ensures ReadPackage("XYZ", [0.0])
            == Failure(UnknownTrainingType("Invalid training type. Available types: SWM, RUN, WLK"))
  {
    ReadPackageUnknownType("XYZ", [0.0]);
  }
}
