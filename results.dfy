/**
 * The `Results` value object of lib/results.rb: an outcome, the located
 * file(s) and an optional message, fixed at construction and only read
 * afterwards.
 */
module Results {
  import opened Wrappers

  /** The two outcome symbols the finder uses, `:success` and `:failed`. */
  datatype Status = Success | Failed

  /**
   * A result record. `F` is the type of the `files` payload; the Ruby
   * class accepts any value there.
   */
  datatype Results<F> = Results(result: Status, files: F, message: Option<string>) {

    /** `success?` */
    predicate IsSuccess()
    {
      result == Success
    }

    /** `failed?` */
    predicate IsFailed()
    {
      result == Failed
    }
  }

  /**
   * `Results.new(result, files, message = nil)`: the accessors give back
   * exactly the arguments, and a call without a message leaves it `nil`.
   */
  function NewResults<F>(result: Status, files: F, message: Option<string> := None): (r: Results<F>)
    ensures r.result == result && r.files == files && r.message == message
    ensures r.IsSuccess() <==> result == Success
    ensures r.IsFailed() <==> result == Failed
  {
    Results(result, files, message)
  }

  /** A record is never both a success and a failure. */
  lemma SuccessExcludesFailure<F>(r: Results<F>)
    ensures !(r.IsSuccess() && r.IsFailed())
    ensures r.IsSuccess() || r.IsFailed()
  {
  }

  /** Leaving out the message is the same as passing `nil`. */
  lemma MessageDefaultsToNil<F>(result: Status, files: F)
    ensures NewResults(result, files).message == None
    ensures NewResults(result, files) == NewResults(result, files, None)
  {
  }
}
