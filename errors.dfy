/** The exceptions the core raises: its own MetageneError (one constructor per message)
    and the Python built-in errors (KeyError, IndexError, ValueError) that escape it. */
module Errors {

  datatype Error =
    // metageneMethods.confirm_integer
    | NotAnInteger(descriptor: string)
    | LessThanMinimum(descriptor: string, minimum: int)
    | GreaterThanMaximum(descriptor: string, maximum: int)
    | OutsideBoundaries(descriptor: string, minimum: int, maximum: int)
    // Read
    | MustBeInteger(name: string)
    | AbundanceNegative
    | MappingsNotPositive
    | ChromosomeNotInAnalysisSet(chromosome: string)
    | MultipleSegments
    | AbundanceTagMissing
    // Feature
    | StartLargerThanEnd(format: string)
    | ChromosomeNotInLengthTable(chromosome: string)
    | UnstrandedReadOnStrandedFeature
    // Python built-in exceptions that the source lets escape
    | KeyError(key: string)
    | IndexError
    | ValueError(text: string)
}
