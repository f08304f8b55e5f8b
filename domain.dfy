/**
 * The records shared by the business layer and the data-access layer of the
 * ad-serving service: an ad campaign, its targeting condition, and the small
 * wrappers used for the operations' error returns.
 */
module Domain {

  /** A value that may be missing (a Go nil pointer, a failed conversion). */
  datatype Option<+T> = None | Some(value: T)

  /** An operation's outcome: a value, or the error the operation returned. */
  datatype Result<+T> = Ok(value: T) | Err(error: Error)

  /**
   * The errors the core can return. Errors that come from the store are
   * opaque to the model; they are passed through unchanged.
   */
  datatype Error =
    | ValidationError(message: string)
    | TimeParseError
    | StoreError(message: string)

  /**
   * The targeting condition of an ad. An age of 0 and an empty dimension
   * list both mean "not provided".
   */
  datatype Condition = Condition(
    ageStart: int,
    ageEnd: int,
    gender: seq<string>,
    country: seq<string>,
    platform: seq<string>)

  /** The condition a Go zero value `&Condition{}` stands for. */
  const EmptyCondition := Condition(0, 0, [], [], [])

  /**
   * An ad campaign. Timestamps are kept as the strings the service receives
   * and stores; `condition` is `None` where the source holds a nil pointer.
   */
  datatype Ad = Ad(
    title: string,
    startAt: string,
    endAt: string,
    condition: Option<Condition>)

  /** A positional argument of a SQL statement. */
  datatype Value = Text(text: string) | Int(number: int)
}
