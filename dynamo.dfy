/** DynamoDB's typed attribute values, as the low-level client exchanges them:
    `{'S': "text"}` for a string and `{'N': "123"}` for a number, whose digits
    travel as a string. */
module Dynamo {

  datatype AttrValue = S(s: string) | N(n: string)
  {
    /** The single value inside the one-key wrapper. */
    function Payload(): string
    {
      match this
      case S(t) => t
      case N(t) => t
    }
  }

  /** One table item: attribute name to typed value. */
  type Item = map<string, AttrValue>
}
