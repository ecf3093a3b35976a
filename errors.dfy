/** The Python exceptions that the wizard raises or lets escape, as data. */
module Errors {

  /** Which check raised a TypeError. */
  datatype TypeReason =
    | StepsNotAList             // the constructor argument is not a list
    | ElementNotAStep           // some element of the list is not a Step
    | NotAllArgumentsConverted  // '%' formatting with an argument left over
    | NotEnoughArguments        // '%' formatting with more conversions than arguments

  /** Which check raised a ValueError. */
  datatype ValueReason =
    | DuplicateSlugs            // two steps share a slug
    | IncompleteFormat          // a format string ending in a lone '%'
    | UnsupportedFormat         // a conversion other than %s or %%

  datatype Error =
    | TypeError(typeReason: TypeReason)
    | ValueError(valueReason: ValueReason)
    | IndexError                // indexing [0] of an empty list
    | AttributeError            // an attribute looked up on None
    | Http404                   // django.http.Http404
    | NotImplementedError(message: string)
}
