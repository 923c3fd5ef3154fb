/** Values of the document store as the Python driver hands them to the handlers,
    and the ObjectId identifiers the store assigns to documents. */
module Bson {

  datatype Option<T> = None | Some(value: T)

  /** One field value of a stored document. */
  datatype Value =
    | Null
    | Bool(b: bool)
    | Int(i: int)
    | Real(r: real)                    // a float; never computed with
    | Str(s: string)
    | Oid(hex: string)                 // an ObjectId, by its lower-case hex text
    | Date(t: int)                     // a datetime, as a timestamp
    | Array(items: seq<Value>)
    | Object(fields: map<string, Value>)

  /** BSON integers are at most 8 bytes wide: the driver encodes a Python int
      in [-2^63, 2^63) and raises for any other. */
  const Int64Limit: int := 0x8000_0000_0000_0000

  predicate FitsInt64(n: int)
  {
    -Int64Limit <= n < Int64Limit
  }

  /** Whether the driver can encode `v`: every integer in it, however deeply
      nested, fits in 8 bytes. */
  predicate Encodes(v: Value)
  {
    match v
    case Int(i) => FitsInt64(i)
    case Array(items) => forall x :: x in items ==> Encodes(x)
    case Object(fields) => forall k :: k in fields ==> Encodes(fields[k])
    case _ => true
  }

  /** A document: a Python dict from field names to values. */
  type Doc = map<string, Value>

  /** `d.get(key)`; the store treats a missing field like null when matching. */
  function Get(d: Doc, key: string): Value
  {
    if key in d then d[key] else Null
  }

  predicate IsHexDigit(c: char)
  {
    '0' <= c <= '9' || 'a' <= c <= 'f' || 'A' <= c <= 'F'
  }

  /** `ObjectId.is_valid(s)` for a string: exactly 24 hexadecimal digits. */
  predicate IsValidId(s: string)
  {
    |s| == 24 && forall i :: 0 <= i < |s| ==> IsHexDigit(s[i])
  }

  predicate IsUpper(c: char)
  {
    'A' <= c <= 'Z'
  }

  /** The form `str(ObjectId(...))` produces: valid and without upper-case digits. */
  predicate IsCanonicalId(s: string)
  {
    IsValidId(s) && forall i :: 0 <= i < |s| ==> !IsUpper(s[i])
  }

  function LowerChar(c: char): char
  {
    if IsUpper(c) then (c as int + 32) as char else c
  }

  /** ASCII lower-casing, character by character. */
  function Lower(s: string): (r: string)
    ensures |r| == |s|
    ensures forall i :: 0 <= i < |s| ==> r[i] == LowerChar(s[i])
  {
    seq(|s|, i requires 0 <= i < |s| => LowerChar(s[i]))
  }

  /** `ObjectId(s)`: fails (InvalidId) unless `s` is valid; the id it denotes
      is written in lower case. */
  function ParseId(s: string): (r: Option<Value>)
    ensures r.Some? <==> IsValidId(s)
    ensures r.Some? ==> r.value.Oid? && IsCanonicalId(r.value.hex) && |r.value.hex| == |s|
  {
    if IsValidId(s) then Some(Oid(Lower(s))) else None
  }

  /** The text of a canonical id parses back to that same id. */
  lemma ParseCanonical(h: string)
    requires IsCanonicalId(h)
    ensures ParseId(h) == Some(Oid(h))
  {
    assert Lower(h) == h by {
      forall i | 0 <= i < |h| ensures Lower(h)[i] == h[i] {
        assert !IsUpper(h[i]);
      }
    }
  }

  /** Parsing ignores the case of the hex digits: two strings that differ only in
      case are both rejected or denote the same id. */
  lemma ParseIgnoresCase(s: string, t: string)
    requires Lower(s) == Lower(t)
    ensures ParseId(s) == ParseId(t)
  {
    assert |s| == |t|;
    forall c: char ensures IsHexDigit(c) <==> IsHexDigit(LowerChar(c)) {
    }
    if IsValidId(s) {
      forall i | 0 <= i < |t| ensures IsHexDigit(t[i]) {
        assert LowerChar(s[i]) == LowerChar(t[i]);
      }
    }
    if IsValidId(t) {
      forall i | 0 <= i < |s| ensures IsHexDigit(s[i]) {
        assert LowerChar(s[i]) == LowerChar(t[i]);
      }
    }
  }
}
