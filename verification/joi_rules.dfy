/** Request bodies and the field rules the validators use. A body maps field
    names to JSON-like values; a field that is absent is not in the map. */
module JoiRules {

  datatype Value = Str(s: string) | Num(x: real) | DateValue(ms: int) | Other

  type Body = map<string, Value>

  predicate IsInteger(x: real) {
    x.Floor as real == x
  }

  /** Every character lies in the Basic Multilingual Plane. */
  predicate IsBmp(s: string) {
    forall i | 0 <= i < |s| :: s[i] as int <= 0xFFFF
  }

  /** Every character lies above the Basic Multilingual Plane. */
  predicate IsAstral(s: string) {
    forall i | 0 <= i < |s| :: s[i] as int > 0xFFFF
  }

  /** JavaScript's `length` of a string: the number of UTF-16 code units, two
      for each character above U+FFFF. */
  function Utf16Length(s: string): (n: nat)
    ensures |s| <= n <= 2 * |s|
    ensures IsBmp(s) ==> n == |s|
    ensures IsAstral(s) ==> n == 2 * |s|
  {
    if |s| == 0 then 0
    else
      assert IsBmp(s) ==> IsBmp(s[1..]) by {
        assert forall i | 0 <= i < |s[1..]| :: s[1..][i] == s[i + 1];
      }
      assert IsAstral(s) ==> IsAstral(s[1..]) by {
        assert forall i | 0 <= i < |s[1..]| :: s[1..][i] == s[i + 1];
      }
      (if s[0] as int > 0xFFFF then 2 else 1) + Utf16Length(s[1..])
  }

  /** `string().min(lo).max(hi).required()`: a string whose UTF-16 length lies
      in `lo..hi`. */
  function StringIn(body: Body, key: string, lo: nat, hi: nat): (ok: bool)
    ensures ok ==> key in body && body[key].Str? && |body[key].s| <= hi
    ensures ok && lo > 0 ==> body[key].s != ""
    ensures ok ==> lo <= Utf16Length(body[key].s) <= hi
    ensures key in body && body[key].Str? && IsAstral(body[key].s) ==>
              (ok <==> lo <= 2 * |body[key].s| <= hi)
    ensures key in body && body[key].Str? && IsBmp(body[key].s) ==>
              (ok <==> lo <= |body[key].s| <= hi)
  {
    key in body && body[key].Str? && lo <= Utf16Length(body[key].s) <= hi
  }

  /** `number().integer().positive().min(lo).max(hi).required()`: a whole
      number in `lo..hi`; with `lo >= 1`, `positive()` adds nothing. */
  function IntegerIn(body: Body, key: string, lo: int, hi: int): (ok: bool)
    ensures ok ==> key in body && body[key].Num? && body[key] == Num(body[key].x.Floor as real)
                   && lo <= body[key].x.Floor <= hi && body[key].x.Floor >= 1
    ensures (lo >= 1 && key in body && body[key].Num? && IsInteger(body[key].x)
             && lo <= body[key].x.Floor <= hi) ==> ok
  {
    && key in body
    && body[key].Num?
    && IsInteger(body[key].x)
    && body[key].x > 0.0
    && lo as real <= body[key].x <= hi as real
  }

  /** `date()` without `required()`: absent, or a date. */
  function OptionalDate(body: Body, key: string): (ok: bool)
    ensures key !in body ==> ok
    ensures key in body ==> (ok <==> body[key].DateValue?)
  {
    key !in body || body[key].DateValue?
  }
}
