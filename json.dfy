/**
 * JSON values as they arrive in a request body (after Express's JSON body
 * parser) or as a query-string value. Numbers are kept as integers: no rule of
 * the model looks at their value, only at the fact that they are not strings.
 */
module Json {

  datatype Json =
    | JNull
    | JBool(b: bool)
    | JNum(n: int)
    | JStr(s: string)
    | JArr(items: seq<Json>)
    | JObj(fields: map<string, Json>)
}
