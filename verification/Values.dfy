/** Stored values, rows and ASCII text helpers shared by every component. */
module Values {

  datatype Option<+T> = None | Some(value: T) {
    predicate IsFailure() {
      None?
    }

    function PropagateFailure<U>(): Option<U>
      requires None?
    {
      None
    }

    function Extract(): T
      requires Some?
    {
      value
    }
  }

  /** The five SQLite storage classes. */
  datatype Value =
    | Null
    | Integer(i: int)
    | Real(r: real)
    | Text(t: string)
    | Blob(b: seq<bv8>)

  type Row = map<string, Value>

  /** SQL compares numbers by value, whether they are stored as INTEGER or as REAL. */
  predicate SqlEqual(a: Value, b: Value) {
    match (a, b)
    case (Integer(i), Real(r)) => i as real == r
    case (Real(r), Integer(i)) => i as real == r
    case _ => a == b
  }

  /** SQL's three truth values. */
  datatype Tri = True | False | Unknown

  function And3(a: Tri, b: Tri): Tri {
    if a == False || b == False then False
    else if a == True && b == True then True
    else Unknown
  }

  function Or3(a: Tri, b: Tri): Tri {
    if a == True || b == True then True
    else if a == False && b == False then False
    else Unknown
  }

  function Truth(b: bool): Tri {
    if b then True else False
  }

  /** ASCII lower case of one character; every other character is unchanged. */
  function LowerChar(c: char): char {
    if 'A' <= c <= 'Z' then (c as int + 32) as char else c
  }

  function Lower(s: string): (r: string)
    ensures |r| == |s|
    ensures forall i :: 0 <= i < |s| ==> r[i] == LowerChar(s[i])
  {
    if s == [] then [] else [LowerChar(s[0])] + Lower(s[1..])
  }

  /** `str::eq_ignore_ascii_case`. */
  predicate SameName(a: string, b: string) {
    Lower(a) == Lower(b)
  }
}
