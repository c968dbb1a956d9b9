/** Runtime type descriptors of CQL values (the `types` package). Only the
    descriptors that the aggregate operators consult are distinguished; every
    other scalar type is represented by `String`. */
module Types {

  datatype IType =
    | Any                        // element type of a list that holds only nulls
    | Boolean
    | String
    | Integer                    // 32-bit signed
    | Long                       // 64-bit signed
    | Decimal
    | Quantity
    | List(elementType: IType)

}
