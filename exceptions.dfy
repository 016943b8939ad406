/**
 * The exception classes the session manager raises (namespace Exceptions in the
 * source), each carrying the message it is constructed with.
 */
module Exceptions {

  datatype Error =
    | Unexpected(msg: string)       // UnexpectedException: the redis extension is missing
    | InvalidArgument(msg: string)  // InvalidArgumentException: a setting or a client option
    | Unconnected(msg: string)      // UnconnectedException: connect / pconnect failed
    | Authorization(msg: string)    // AuthorizationException: auth rejected
    | UnSelected(msg: string)       // UnSelectedException: select rejected
    | ReturnType(msg: string)       // PHP TypeError: a value does not match a declared return type
}
