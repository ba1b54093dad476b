/** Training and serving normalise text the same way, although each file carries its own copy of the code. */
module Consistency {
  import opened Wrappers
  import Api
  import DataCleaning
  import Text

  /**
   * A surviving row cleaned by the dataset script carries exactly the text the `/predict` route
   * would feed to the model for the same raw text, with its label unchanged; any other row is dropped.
   */
  method TrainingMatchesServing(row: DataCleaning.Row) returns (trained: seq<DataCleaning.Row>, served: string)
    requires row.text.Some?
    ensures served == Text.Normalize(row.text.value)
    ensures DataCleaning.Survives(row) ==> trained == [DataCleaning.Row(Some(served), row.generated)]
    ensures !DataCleaning.Survives(row) ==> trained == []
  {
    trained := DataCleaning.CleanText([row]);
    served := Api.CleanText(row.text.value);
  }
}
