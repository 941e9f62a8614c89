/** The failures the core raises, and the fatal conditions the older code runs into. */
module Exceptions {

  datatype Failure =
    | FilterException(message: string)
    | SortException(message: string)
    | PaginationException(message: string)
    | MissingDependencyException(message: string)
      /** An exception from executing the COUNT query that is not caught. */
    | CountQueryFailed
      /** PHP `Error`: a typed property read before it was initialised. */
    | UninitializedProperty(property: string)
      /** A recursion without base case exhausts the stack. */
    | StackOverflow
      /** PHP `Error`: a call of a method the class does not have. */
    | UndefinedMethod(methodName: string)

  const LimitNotAvailableMessage: string := "Limit parameter not available in current request."
  const InvalidLimitMessage: string := "Invalid limit parameter. Allowed formats: limit=[limit], limit=[offset],[limit]"
  const MissingOrmMessage: string :=
    "You need to install doctrine/orm and doctrine/doctrine-bundle > 2.0 to use ORM-capabilities within ApiTK bundles."
}
