/**
 * `HeaderInformationTrait`: a key/value map of response header information.
 * It also stands for the HeaderInformation service the pagination traits
 * write the total to.
 */
module Headers {

  datatype HeaderValue = IntValue(n: int) | StringValue(s: string)

  class HeaderInformationTrait {
    var headerInformation: map<string, HeaderValue>

    constructor ()
      ensures headerInformation == map[]
    {
      headerInformation := map[];
    }

    /** Maps `key` to `value`, replacing an earlier value; every other key keeps its value. */
    method AddHeaderInformation(key: string, value: HeaderValue)
      modifies this
      ensures headerInformation == old(headerInformation)[key := value]
      ensures key in headerInformation && headerInformation[key] == value
      ensures forall k :: k != key ==>
        (k in headerInformation <==> k in old(headerInformation)) &&
        (k in headerInformation ==> headerInformation[k] == old(headerInformation)[k])
    {
      headerInformation := headerInformation[key := value];
    }

    /** Returns the current map and changes nothing. */
    method GetHeaderInformation() returns (m: map<string, HeaderValue>)
      ensures m == headerInformation
    {
      m := headerInformation;
    }
  }
}
