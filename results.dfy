/** The outcome of a step that the script would abort on: either its value or
    the reason it failed. */
module Results {

  datatype Result<+T, +E> = Success(value: T) | Failure(error: E)
}
