/** Optional values and tagged results, used wherever the services return
    either a value or an error object. */
module Wrappers {

  datatype Option<+T> = None | Some(value: T)

  datatype Result<+T, +E> = Success(value: T) | Failure(error: E)
}

/** The error values the services hand back instead of throwing. */
module Errors {

  datatype ServiceError = MealPlanNotFound | StoreNotFound | CartNotFound {

    /** The `error` string carried by the service's result object. */
    function Code(): (code: string)
      ensures |code| > 0
    {
      match this
      case MealPlanNotFound => "meal_plan_not_found"
      case StoreNotFound => "store_not_found"
      case CartNotFound => "cart_not_found"
    }
  }
}
