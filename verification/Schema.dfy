/** The structural schemas shared by descriptors, emitters and value converters. */
module Schema {
  /** Map-like schemas list their entries in key order, as the program's ordered maps iterate them. */
  datatype Fields = End | Field(key: string, schema: Type, rest: Fields)

  datatype Type =
    | Any
    | Never
    | Unit
    | Bool
    | I64
    | U64
    | F64
    | String
    | Bytes
    | Optional(item: Type)
    | Array(item: Type, len: nat)
    | List(item: Type)
    | Map(item: Type)
    | Table(fields: Fields)
    | Variant(variants: Fields)
    | Callable(contract: string, input: Type, output: Type)
    | Object(contract: string)
}
