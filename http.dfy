/** A handler's JSON response: a status code with either a body or an error message. */
module Http {

  datatype Response<T> = Ok(status: int, body: T) | Fail(status: int, message: string)
}
