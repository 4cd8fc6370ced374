/** Python-level values the rest of the model needs: truthiness, exceptions
    identified by their class hierarchy, bytes, and ASCII case folding. */
module Py {

  newtype byte = x: int | 0 <= x < 256

  type Bytes = seq<byte>

  datatype Option<+T> = None | Some(value: T) {
    function GetOr(default: T): T {
      match this
      case Some(v) => v
      case None => default
    }
  }

  datatype Result<+T, +E> = Ok(value: T) | Err(error: E)

  /** An exception instance: the method resolution order of its class, most
      derived class first, and its message. */
  datatype Exc = Exc(mro: seq<string>, msg: string)

  /** An instance of a built-in exception class that derives directly from
      Exception. */
  function Builtin(cls: string, msg: string): Exc {
    Exc([cls, "Exception", "BaseException"], msg)
  }

  /** `isinstance(e, classes)` for a tuple of exception classes. */
  predicate IsInstance(e: Exc, classes: set<string>) {
    exists i | 0 <= i < |e.mro| :: e.mro[i] in classes
  }

  predicate IsException(e: Exc) {
    IsInstance(e, {"Exception"})
  }

  /** The Python objects that flow through the core. */
  datatype Value =
    | PyNone
    | PyBool(b: bool)
    | PyInt(i: int)
    | PyBytes(bytes: Bytes)
    | PyStr(s: string)
    | PyExc(exc: Exc)
    | PyFuture(id: nat)

  /** Python truthiness (`bool(v)`): None, False, 0 and empty containers are
      falsy; exceptions and futures are plain objects and so truthy. */
  predicate Truthy(v: Value) {
    match v
    case PyNone => false
    case PyBool(b) => b
    case PyInt(i) => i != 0
    case PyBytes(bs) => |bs| > 0
    case PyStr(s) => |s| > 0
    case PyExc(_) => true
    case PyFuture(_) => true
  }

  predicate IsAscii(s: string) {
    forall i | 0 <= i < |s| :: s[i] as int < 128
  }

  /** The bytes of an ASCII string, as in a `b"..."` literal. */
  function Ascii(s: string): (r: Bytes)
    requires IsAscii(s)
    ensures |r| == |s|
    ensures forall i | 0 <= i < |s| :: r[i] as int == s[i] as int
  {
    seq(|s|, i requires 0 <= i < |s| => s[i] as int as byte)
  }

  function LowerChar(c: char): char {
    if 'A' <= c <= 'Z' then (c as int + 32) as char else c
  }

  /** `str.lower()` restricted to ASCII letters. */
  function Lower(s: string): (r: string)
    ensures |r| == |s|
    ensures forall i | 0 <= i < |s| :: r[i] == LowerChar(s[i])
  {
    if s == [] then [] else [LowerChar(s[0])] + Lower(s[1..])
  }
}
