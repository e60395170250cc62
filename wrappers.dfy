/** Failure-carrying results shared by the whole model. */
module Wrappers {

  datatype Option<+T> = None | Some(value: T) {
    predicate IsFailure() { None? }

    function PropagateFailure<U>(): Option<U>
      requires None?
    {
      None
    }

    function Extract(): T
      requires Some?
    {
      value
    }
  }

  /** The ways the transform aborts: each stands for a TypeError the
      JavaScript engine raises on a node shape the code does not expect. */
  datatype Error =
    | ValuelessTemplateAttribute(attribute: string)
    | NotAnObject(field: string)
    | NotAMemberExpression(prop: string)
    | UntypedProperty(prop: string)
    | MissingReturnArgument
    | ExpressionBodiedArrow
    | MissingModuleId
    | MissingSourcePath
    | KeysOfNull(field: string)
    | NotJson(field: string)
    | UnknownModule(id: string)
    | EmptyBundle

  datatype Result<+T> = Success(value: T) | Failure(error: Error) {
    predicate IsFailure() { Failure? }

    function PropagateFailure<U>(): Result<U>
      requires Failure?
    {
      Failure(error)
    }

    function Extract(): T
      requires Success?
    {
      value
    }
  }
}
