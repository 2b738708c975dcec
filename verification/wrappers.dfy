/** Failure values shared by every module: an optional value, and a result that
    carries either a value or the configuration error the library throws. */
module Wrappers {

  datatype Option<+T> = None | Some(value: T)

  /** The errors the library raises. All of them are fatal configuration or
      programmer errors; `TypeError` and `ReferenceError` stand for the
      JavaScript runtime errors that the code as written provokes. */
  datatype Error =
    | PluginsNotArray                   // plugins must be an array
    | NoPropTypeKeys                    // property plugin with an empty propType object
    | InvalidPlugin                     // neither the global nor the property shape
    | StyleOptionsNotFunction           // styleOptions declared but not a function
    | DefaultStylesNotArray             // defaultStyles given but not an array
    | DeclaredTwice(name: string)       // static member and styleOptions both declare it
    | InvalidDeclaration(name: string)  // declaration of the wrong type
    | StyleMappingNotAllowed            // `style` key inside mapPropsToStyleObject
    | NoRegistry                        // component built before configuration
    | NoStyleSheet                      // component built before the registry compiled
    | TypeError(what: string)
    | ReferenceError(name: string)

  datatype Result<+T> = Ok(value: T) | Err(error: Error) {
    predicate IsFailure() { Err? }

    function PropagateFailure<U>(): Result<U>
      requires Err?
    {
      Err(error)
    }

    function Extract(): T
      requires Ok?
    {
      value
    }
  }
}
