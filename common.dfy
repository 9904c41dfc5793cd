/** Option, Result and Outcome wrappers, and the conditions the Variogram raises. */
module Common {

  /** A value or nothing; also stands for NaN (None) where the source works on floats. */
  datatype Option<+T> = None | Some(value: T)

  /** The error conditions raised by the modelled part of the Variogram. */
  datatype Error =
    | LengthMismatch                    // set_values: assert len(values) == len(self._X)
    | UnknownEstimator(name: string)    // set_estimator: unknown name
    | UnknownModel(name: string)        // set_model: unknown name
    | UnknownDistance(name: string)     // set_dist_function: unknown name
    | NotCallable                       // set_dist_function: neither a string nor a callable
    | UnknownBinning(name: string)      // set_bin_func: unknown name
    | UnsupportedFitMethod(name: string)// fit: any method other than 'lm'
    | MaskMismatch                      // fit: boolean mask of y does not fit x (numpy IndexError)
    | EmptyReduction                    // np.nanmax of an empty array (numpy ValueError)
    | KeyError(key: string)             // parameters: a key missing from the description
    | AttributeError(attribute: string) // reading an attribute that was never set
    | TypeError                         // a numpy call rejecting its arguments

  /** The outcome of a computation that either returns a value or raises. */
  datatype Result<+R> = Success(value: R) | Failure(error: Error) {
    predicate IsFailure() { Failure? }

    function PropagateFailure<U>(): Result<U>
      requires Failure?
    {
      Failure(error)
    }

    function Extract(): R
      requires Success?
    {
      value
    }
  }

  /** The outcome of a setter: it returns nothing or raises. */
  datatype Outcome = Pass | Fail(error: Error)
}
